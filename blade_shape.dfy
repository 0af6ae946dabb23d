/** The blade-shaping pass that four grass components repeat with their own
    constants (OptimizedGrassDemo, GrassFieldLOD, RealisticMainGrass and the
    simple blade of RealisticGrassDemo).

    The pass runs over the vertices of a vertical plane centred on the origin.
    Each vertex is shifted up by h/2; a vertex whose shifted y lies in [0, h]
    gets a height ratio hr = clamp(y/h, 0, 1) and then, in this order:
    x := x * 0.9 * cos(0.45 * PI * hr)               (taper)
    z := bend * hr^2.5 + wave * sin(2 * PI * hr)     (bend plus ripple)
    y := y - droop * ((hr - 0.7) / 0.3)^2 if hr > 0.7, else y   (droop)
    Each step is guarded by a NaN/infinity test on the amount it computes. A
    second loop then resets every non-finite entry of the buffer to 0.
 */
module BladeShape {
  import opened Numerics
  import opened VertexBuffer

  /** The constants of one copy of the pass: the blade height h and the absolute
      amplitudes of the bend, ripple and droop terms. */
  datatype ShapeParams = ShapeParams(height: real, bend: real, wave: real, droop: real)

  /** The guard `y >= 0 && y <= h` on the shifted y; it fails for NaN and for
      both infinities. */
  predicate InBand(p: ShapeParams, y: Float)
  {
    y.Finite? && 0.0 <= y.value + p.height / 2.0 <= p.height
  }

  /** `Math.min(Math.max(y / h, 0), 1)` on a guarded y: NaN when h is 0 (0/0),
      otherwise y/h itself, which the guard already keeps in [0, 1]. */
  function HeightRatio(y: real, h: real): (hr: Float)
    requires 0.0 <= y <= h
    ensures h == 0.0 ==> hr == NaN
    ensures h > 0.0 ==> hr == Finite(y / h) && 0.0 <= y / h <= 1.0
  {
    if h == 0.0 then NaN
    else
      assert y / h <= 1.0 by { RatioAtMostOne(y, h); }
      Finite(Clamp01(y / h))
  }

  lemma RatioAtMostOne(y: real, h: real)
    requires 0.0 <= y <= h && h > 0.0
    ensures y / h <= 1.0
  {
    assert y / h * h == y;
  }

  function TaperFactor(m: Prims, hr: real): real
  {
    m.cos(hr * PI * 0.45) * 0.9
  }

  function DroopAmount(p: ShapeParams, hr: real): real
  {
    var f := (hr - 0.7) / 0.3;
    f * f * p.droop
  }

  /** One iteration of the shaping loop. Only a vertex in the band is touched;
      its y is always written as a finite value, and for a blade of positive
      height so are z and (when it was finite) x; for a zero-height blade only
      y = 0 is written. */
  function ShapeVertex(p: ShapeParams, m: Prims, v: Vertex<Float>): (r: Vertex<Float>)
    ensures !InBand(p, v.y) ==> r == v
    ensures InBand(p, v.y) ==> r.y.Finite?
    ensures InBand(p, v.y) && p.height > 0.0 ==> r.z.Finite? && (v.x.Finite? ==> r.x.Finite?)
    ensures InBand(p, v.y) && p.height == 0.0 ==> r == Vertex(v.x, Finite(0.0), v.z)
  {
    if !InBand(p, v.y) then v
    else
      var y := v.y.value + p.height / 2.0;
      match HeightRatio(y, p.height)
      case Finite(hr) =>
        var bend := m.pow25(hr) * p.bend;
        var wave := m.sin(hr * PI * 2.0) * p.wave;
        Vertex(Mul(v.x, TaperFactor(m, hr)),
               Finite(if hr > 0.7 then y - DroopAmount(p, hr) else y),
               Finite(bend + wave))
      case _ =>
        // every amount is NaN: only the shifted y is written
        Vertex(v.x, Finite(y), v.z)
  }

  function ShapeFn(p: ShapeParams, m: Prims): Vertex<Float> -> Vertex<Float>
  {
    v => ShapeVertex(p, m, v)
  }

  /** The buffer the builder hands to `computeVertexNormals`: the shaping loop
      followed by the clean-up loop. */
  function Blade(s: seq<Float>, p: ShapeParams, m: Prims): (r: seq<Float>)
    requires |s| % 3 == 0
    ensures |r| == |s|
    ensures forall i :: 0 <= i < |r| ==> r[i].Finite?
  {
    SanitizeAll(MapVertices(s, ShapeFn(p, m)))
  }

  /** The builder's two loops over the position buffer. */
  method BuildBlade(a: array<Float>, p: ShapeParams, m: Prims)
    requires a.Length % 3 == 0
    modifies a
    ensures a[..] == Blade(old(a[..]), p, m)
  {
    MapVerticesInPlace(a, ShapeFn(p, m));
    CleanUp(a);
  }

  // ---------------------------------------------------------------------------
  // Properties of one shaping step

  /** A vertex whose shifted y falls outside [0, h] (or is not finite) is left
      exactly as it was. */
  lemma ShapeOutsideBand(p: ShapeParams, m: Prims, v: Vertex<Float>)
    requires !InBand(p, v.y)
    ensures ShapeVertex(p, m, v) == v
  {
  }

  /** Inside the band of a blade of positive height, x is multiplied by the
      taper factor at hr = y/h, which lies in [0, 1]. */
  lemma ShapeTaperFormula(p: ShapeParams, m: Prims, v: Vertex<Float>)
    requires p.height > 0.0 && InBand(p, v.y) && v.x.Finite?
    ensures var hr := (v.y.value + p.height / 2.0) / p.height;
      && 0.0 <= hr <= 1.0
      && ShapeVertex(p, m, v).x == Finite(v.x.value * TaperFactor(m, hr))
  {
    var y := v.y.value + p.height / 2.0;
    assert HeightRatio(y, p.height) == Finite(y / p.height);
  }

  /** For hr in [0, 1] the cosine's argument stays in [0, PI/2], so the taper
      factor lies in [0, 0.9]. */
  lemma TaperFactorRange(m: Prims, hr: real)
    requires Lawful(m) && 0.0 <= hr <= 1.0
    ensures 0.0 <= TaperFactor(m, hr) <= 0.9
  {
    TaperAngle(hr);
    CosOnQuarter(m, hr * PI * 0.45);
  }

  /** The taper only narrows: |x'| <= 0.9 |x|. */
  lemma ShapeTaper(p: ShapeParams, m: Prims, v: Vertex<Float>)
    requires Lawful(m) && p.height > 0.0 && InBand(p, v.y) && v.x.Finite?
    ensures ShapeVertex(p, m, v).x.Finite?
    ensures Abs(ShapeVertex(p, m, v).x.value) <= 0.9 * Abs(v.x.value)
  {
    var hr := (v.y.value + p.height / 2.0) / p.height;
    ShapeTaperFormula(p, m, v);
    TaperFactorRange(m, hr);
    Narrowing(ShapeVertex(p, m, v).x, v.x.value, TaperFactor(m, hr));
  }

  lemma TaperAngle(hr: real)
    requires 0.0 <= hr <= 1.0
    ensures 0.0 <= hr * PI * 0.45 <= PI / 2.0
  {
    assert hr * PI <= 1.0 * PI;
  }

  lemma CosOnQuarter(m: Prims, a: real)
    requires Lawful(m) && 0.0 <= a <= PI / 2.0
    ensures 0.0 <= m.cos(a) <= 1.0
  {
  }

  lemma Narrowing(r: Float, x: real, t: real)
    requires 0.0 <= t <= 0.9 && r == Finite(x * t)
    ensures r.Finite? && Abs(r.value) <= 0.9 * Abs(x)
  {
    if x >= 0.0 {
      assert x * t <= x * 0.9;
    } else {
      assert (-x) * t <= (-x) * 0.9;
    }
  }

  /** The bend term plus the ripple term replaces z. */
  lemma ShapeBend(p: ShapeParams, m: Prims, v: Vertex<Float>)
    requires p.height > 0.0 && InBand(p, v.y)
    ensures var hr := (v.y.value + p.height / 2.0) / p.height;
      ShapeVertex(p, m, v).z == Finite(p.bend * m.pow25(hr) + p.wave * m.sin(2.0 * PI * hr))
  {
    var hr := (v.y.value + p.height / 2.0) / p.height;
    assert HeightRatio(v.y.value + p.height / 2.0, p.height) == Finite(hr);
    assert hr * PI * 2.0 == 2.0 * PI * hr;
  }

  /** The shifted y is written back, lowered by the droop term only above 70% of
      the height; with a non-negative droop amplitude y never rises above the
      shifted y. */
  lemma ShapeDroop(p: ShapeParams, m: Prims, v: Vertex<Float>)
    requires p.height > 0.0 && InBand(p, v.y)
    ensures var y := v.y.value + p.height / 2.0;
      var hr := y / p.height;
      && (hr <= 0.7 ==> ShapeVertex(p, m, v).y == Finite(y))
      && (hr > 0.7 ==> ShapeVertex(p, m, v).y == Finite(y - p.droop * ((hr - 0.7) / 0.3) * ((hr - 0.7) / 0.3)))
      && (p.droop >= 0.0 ==> ShapeVertex(p, m, v).y.value <= y)
  {
    var y := v.y.value + p.height / 2.0;
    var hr := y / p.height;
    assert HeightRatio(y, p.height) == Finite(hr);
    var f := (hr - 0.7) / 0.3;
    assert f * f >= 0.0;
    if p.droop >= 0.0 {
      assert f * f * p.droop >= 0.0;
    }
  }

  /** The tip of the blade (original y = h/2) has hr = 1: its taper factor is
      0.9 cos(0.45 PI), which is positive since 0.45 PI < PI/2 (the tip keeps
      some width), and it droops by the full amplitude. */
  lemma ShapeTip(p: ShapeParams, m: Prims, v: Vertex<Float>)
    requires p.height > 0.0 && v.y == Finite(p.height / 2.0)
    ensures Lawful(m) ==> 0.0 < m.cos(PI * 0.45) * 0.9
    ensures ShapeVertex(p, m, v) ==
      Vertex(Mul(v.x, m.cos(PI * 0.45) * 0.9),
             Finite(p.height - p.droop),
             Finite(p.bend * m.pow25(1.0) + p.wave * m.sin(2.0 * PI)))
  {
    assert InBand(p, v.y);
    var y := v.y.value + p.height / 2.0;
    assert y == p.height;
    assert y / p.height == 1.0;
    assert HeightRatio(y, p.height) == Finite(1.0);
    assert DroopAmount(p, 1.0) == p.droop;
    assert 1.0 * PI * 0.45 == PI * 0.45;
    assert 1.0 * PI * 2.0 == 2.0 * PI;
    var w := ShapeVertex(p, m, v);
    assert w.x == Mul(v.x, m.cos(PI * 0.45) * 0.9);
    assert w.y == Finite(p.height - p.droop);
    assert w.z == Finite(p.bend * m.pow25(1.0) + p.wave * m.sin(2.0 * PI));
  }

  /** A zero-height blade: the one vertex that passes the guard gets y = 0 and
      keeps x and z, so the 0/0 height ratio never reaches the buffer. */
  lemma ShapeZeroHeight(p: ShapeParams, m: Prims, v: Vertex<Float>)
    requires p.height == 0.0 && InBand(p, v.y)
    ensures ShapeVertex(p, m, v) == Vertex(v.x, Finite(0.0), v.z)
  {
  }

  // ---------------------------------------------------------------------------
  // Properties of the finished buffer

  /** Vertex j of the finished buffer is vertex j after one shaping step and the
      clean-up; a vertex inside the band with a finite x comes out exactly as the
      shaping step made it. */
  lemma BladeVertex(s: seq<Float>, p: ShapeParams, m: Prims, j: nat)
    requires |s| % 3 == 0 && 3 * j + 3 <= |s|
    ensures var w := ShapeVertex(p, m, VertexAt(s, j));
      && VertexAt(Blade(s, p, m), j) == Vertex(Sanitized(w.x), Sanitized(w.y), Sanitized(w.z))
      && (p.height > 0.0 && InBand(p, VertexAt(s, j).y) && VertexAt(s, j).x.Finite? ==>
            VertexAt(Blade(s, p, m), j) == w)
  {
    MapVerticesAt(s, ShapeFn(p, m), j);
    var v := VertexAt(s, j);
    if p.height > 0.0 && InBand(p, v.y) && v.x.Finite? {
      var y := v.y.value + p.height / 2.0;
      assert HeightRatio(y, p.height).Finite?;
    }
  }

  /** Every entry of the finished buffer is finite, and every entry the shaping
      loop left finite keeps its value. */
  lemma BladeFinite(s: seq<Float>, p: ShapeParams, m: Prims, i: nat)
    requires |s| % 3 == 0 && i < |s|
    ensures Blade(s, p, m)[i].Finite?
    ensures MapVertices(s, ShapeFn(p, m))[i].Finite? ==> Blade(s, p, m)[i] == MapVertices(s, ShapeFn(p, m))[i]
  {
  }

  /** Vertex j of a finished blade of positive height whose shifted y lies in
      the band and whose x is finite: hr = y/h lies in [0, 1], x is multiplied
      by the taper factor at hr, z is the bend plus ripple and y is the shifted
      y, lowered by the droop term only above 70% of the height. */
  lemma BladeShapedVertex(s: seq<Float>, p: ShapeParams, m: Prims, j: nat)
    requires |s| % 3 == 0 && 3 * j + 3 <= |s| && p.height > 0.0
    requires InBand(p, VertexAt(s, j).y) && VertexAt(s, j).x.Finite?
    ensures var v, w := VertexAt(s, j), VertexAt(Blade(s, p, m), j);
      var y := v.y.value + p.height / 2.0;
      var hr := y / p.height;
      && 0.0 <= hr <= 1.0
      && w.x == Finite(v.x.value * TaperFactor(m, hr))
      && w.z == Finite(p.bend * m.pow25(hr) + p.wave * m.sin(2.0 * PI * hr))
      && (hr <= 0.7 ==> w.y == Finite(y))
      && (hr > 0.7 ==> w.y == Finite(y - p.droop * ((hr - 0.7) / 0.3) * ((hr - 0.7) / 0.3)))
  {
    var v := VertexAt(s, j);
    BladeVertex(s, p, m, j);
    assert VertexAt(Blade(s, p, m), j) == ShapeVertex(p, m, v);
    ShapedVertex(p, m, v);
  }

  /** One shaping step on a guarded vertex with finite x: the taper, the
      bend-plus-ripple and the droop formulas together. */
  lemma ShapedVertex(p: ShapeParams, m: Prims, v: Vertex<Float>)
    requires p.height > 0.0 && InBand(p, v.y) && v.x.Finite?
    ensures var w := ShapeVertex(p, m, v);
      var y := v.y.value + p.height / 2.0;
      var hr := y / p.height;
      && 0.0 <= hr <= 1.0
      && w.x == Finite(v.x.value * TaperFactor(m, hr))
      && w.z == Finite(p.bend * m.pow25(hr) + p.wave * m.sin(2.0 * PI * hr))
      && (hr <= 0.7 ==> w.y == Finite(y))
      && (hr > 0.7 ==> w.y == Finite(y - p.droop * ((hr - 0.7) / 0.3) * ((hr - 0.7) / 0.3)))
  {
    ShapeTaperFormula(p, m, v);
    ShapeBend(p, m, v);
    ShapeDroop(p, m, v);
  }

  /** In the finished blade the taper only narrows: |x'| <= 0.9 |x|. */
  lemma BladeNarrows(s: seq<Float>, p: ShapeParams, m: Prims, j: nat)
    requires Lawful(m) && |s| % 3 == 0 && 3 * j + 3 <= |s| && p.height > 0.0
    requires InBand(p, VertexAt(s, j).y) && VertexAt(s, j).x.Finite?
    ensures VertexAt(Blade(s, p, m), j).x.Finite?
    ensures Abs(VertexAt(Blade(s, p, m), j).x.value) <= 0.9 * Abs(VertexAt(s, j).x.value)
  {
    BladeVertex(s, p, m, j);
    ShapeTaper(p, m, VertexAt(s, j));
  }

  /** Vertex j of a finished blade whose shifted y falls outside the band is the
      input vertex with its non-finite entries reset to 0. */
  lemma BladeUnshapedVertex(s: seq<Float>, p: ShapeParams, m: Prims, j: nat)
    requires |s| % 3 == 0 && 3 * j + 3 <= |s| && !InBand(p, VertexAt(s, j).y)
    ensures var v := VertexAt(s, j);
      VertexAt(Blade(s, p, m), j) == Vertex(Sanitized(v.x), Sanitized(v.y), Sanitized(v.z))
  {
    BladeVertex(s, p, m, j);
  }

  // ---------------------------------------------------------------------------
  // The height-proportional copy

  /** The constants of the copies whose amplitudes scale with the blade height
      (OptimizedGrassDemo and RealisticMainGrass): bend, ripple and droop are
      0.125, 0.008 and 0.067 of the height. */
  function HeightScaled(bladeHeight: real): ShapeParams
  {
    ShapeParams(bladeHeight, bladeHeight * 0.125, bladeHeight * 0.008, bladeHeight * 0.067)
  }

  /** Vertex j of a finished blade: every entry is finite; outside the band the
      vertex only loses its non-finite entries; inside (with finite x) it gets
      the taper, bend-plus-ripple and droop formulas. */
  lemma BladeGeometry(s: seq<Float>, p: ShapeParams, m: Prims, j: nat)
    requires |s| % 3 == 0 && 3 * j + 3 <= |s| && p.height > 0.0
    ensures forall i :: 0 <= i < |s| ==> Blade(s, p, m)[i].Finite?
    ensures var v, w := VertexAt(s, j), VertexAt(Blade(s, p, m), j);
      !InBand(p, v.y) ==> w == Vertex(Sanitized(v.x), Sanitized(v.y), Sanitized(v.z))
    ensures var v, w := VertexAt(s, j), VertexAt(Blade(s, p, m), j);
      InBand(p, v.y) && v.x.Finite? ==>
        var y := v.y.value + p.height / 2.0;
        var hr := y / p.height;
        && 0.0 <= hr <= 1.0
        && w.x == Finite(v.x.value * (m.cos(hr * PI * 0.45) * 0.9))
        && w.z == Finite(p.bend * m.pow25(hr) + p.wave * m.sin(2.0 * PI * hr))
        && (hr <= 0.7 ==> w.y == Finite(y))
        && (hr > 0.7 ==> w.y == Finite(y - p.droop * ((hr - 0.7) / 0.3) * ((hr - 0.7) / 0.3)))
  {
    var v := VertexAt(s, j);
    if InBand(p, v.y) {
      if v.x.Finite? {
        BladeShapedVertex(s, p, m, j);
      }
    } else {
      BladeUnshapedVertex(s, p, m, j);
    }
  }

  /** The finished height-proportional blade: every entry is finite; a vertex
      outside the band only loses its non-finite entries; a vertex inside it
      (with finite x) is tapered, bent and drooped with amplitudes 0.125 h,
      0.008 h and 0.067 h. */
  lemma HeightScaledBlade(s: seq<Float>, bladeHeight: real, m: Prims, j: nat)
    requires |s| % 3 == 0 && 3 * j + 3 <= |s| && bladeHeight > 0.0
    ensures forall i :: 0 <= i < |s| ==> Blade(s, HeightScaled(bladeHeight), m)[i].Finite?
    ensures var v, w := VertexAt(s, j), VertexAt(Blade(s, HeightScaled(bladeHeight), m), j);
      !InBand(HeightScaled(bladeHeight), v.y) ==> w == Vertex(Sanitized(v.x), Sanitized(v.y), Sanitized(v.z))
    ensures var v, w := VertexAt(s, j), VertexAt(Blade(s, HeightScaled(bladeHeight), m), j);
      InBand(HeightScaled(bladeHeight), v.y) && v.x.Finite? ==>
        var y := v.y.value + bladeHeight / 2.0;
        var hr := y / bladeHeight;
        && 0.0 <= hr <= 1.0
        && w.x == Finite(v.x.value * (m.cos(hr * PI * 0.45) * 0.9))
        && w.z == Finite(0.125 * bladeHeight * m.pow25(hr) + 0.008 * bladeHeight * m.sin(2.0 * PI * hr))
        && (hr <= 0.7 ==> w.y == Finite(y))
        && (hr > 0.7 ==> w.y == Finite(y - 0.067 * bladeHeight * ((hr - 0.7) / 0.3) * ((hr - 0.7) / 0.3)))
  {
    BladeGeometry(s, HeightScaled(bladeHeight), m, j);
  }
}
