/** The realistic close-up patch: an extruded blade tapered linearly with
    height, a small shaped plane blade (the one the patch renders), and a
    70 x 70 jittered grid of blade records on flat ground. The grid placer is the
    one RealisticMainGrass copies, so it is stated here over any ground height.
 */
module RealisticGrassDemo {
  import opened Numerics
  import opened VertexBuffer
  import opened BladeShape
  import opened Grid

  // ---------------------------------------------------------------------------
  // Extruded blade

  /** `1 - (y / 0.015) * 0.9`: the blade's width factor at height y. */
  function ExtrudedTaper(y: real): (t: real)
    ensures y == 0.0 ==> t == 1.0
    ensures y == 0.015 ==> t == 0.1
    ensures 0.0 <= y <= 0.015 ==> 0.1 <= t <= 1.0
  {
    1.0 - (y / 0.015) * 0.9
  }

  /** The factor shrinks as the height grows. */
  lemma ExtrudedTaperDecreasing(y1: real, y2: real)
    requires y1 <= y2
    ensures ExtrudedTaper(y2) <= ExtrudedTaper(y1)
  {
  }

  /** One iteration of the taper loop: x and z scaled by the factor at y. The
      height is kept, and between the base and the 15 mm tip no coordinate
      grows in magnitude. */
  function TaperExtruded(v: Vertex<real>): (w: Vertex<real>)
    ensures w.y == v.y
    ensures 0.0 <= v.y <= 0.015 ==> Abs(w.x) <= Abs(v.x) && Abs(w.z) <= Abs(v.z)
  {
    var t := ExtrudedTaper(v.y);
    var w := Vertex(v.x * t, v.y, v.z * t);
    if 0.0 <= v.y <= 0.015 then
      Shrinks(v.x, t);
      Shrinks(v.z, t);
      w
    else
      w
  }

  function TaperExtrudedFn(): Vertex<real> -> Vertex<real>
  {
    v => TaperExtruded(v)
  }

  /** `createGrassBlade`'s loop over the extruded geometry's positions. */
  method TaperExtrudedBlade(positions: array<real>)
    requires positions.Length % 3 == 0
    modifies positions
    ensures positions[..] == MapVertices(old(positions[..]), TaperExtrudedFn())
  {
    MapVerticesInPlace(positions, TaperExtrudedFn());
  }

  /** Every vertex keeps its height and has x and z scaled by the factor at
      that height; between the base and the 15 mm tip the factor lies in
      [0.1, 1], so no vertex moves farther from the blade's axis. */
  lemma ExtrudedVertex(s: seq<real>, j: nat)
    requires |s| % 3 == 0 && 3 * j + 3 <= |s|
    ensures var v, w := VertexAt(s, j), VertexAt(MapVertices(s, TaperExtrudedFn()), j);
      && w.y == v.y
      && w.x == v.x * ExtrudedTaper(v.y) && w.z == v.z * ExtrudedTaper(v.y)
      && (0.0 <= v.y <= 0.015 ==> Abs(w.x) <= Abs(v.x) && Abs(w.z) <= Abs(v.z))
  {
    var v := VertexAt(s, j);
    var w := VertexAt(MapVertices(s, TaperExtrudedFn()), j);
    MapVerticesAt(s, TaperExtrudedFn(), j);
    assert w == TaperExtruded(v);
  }

  /** Scaling by a factor in [0, 1] never grows a magnitude. */
  lemma Shrinks(c: real, t: real)
    requires 0.0 <= t <= 1.0
    ensures Abs(c * t) <= Abs(c)
  {
    BoundedProduct(t, c, 1.0);
    assert t * c == c * t;
  }

  // ---------------------------------------------------------------------------
  // Simple plane blade

  /** The fixed constants of `createSimpleGrassBlade`: a 0.12 tall blade, bend
      0.015, ripple 0.001, droop 0.008. */
  const SimpleBlade: ShapeParams := ShapeParams(0.12, 0.015, 0.001, 0.008)

  /** `createSimpleGrassBlade`: the shaping loop and the clean-up loop. */
  method CreateSimpleGrassBlade(positions: array<Float>, m: Prims)
    requires positions.Length % 3 == 0
    modifies positions
    ensures positions[..] == Blade(old(positions[..]), SimpleBlade, m)
  {
    BuildBlade(positions, SimpleBlade, m);
  }

  /** The finished simple blade: every entry is finite; a vertex whose y + 0.06
      is outside [0, 0.12] only loses its non-finite entries; a vertex inside
      (with finite x) is tapered, bent by 0.015 hr^2.5 + 0.001 sin(2 PI hr) and
      drooped by 0.008 ((hr - 0.7) / 0.3)^2 above hr = 0.7. */
  lemma SimpleBladeGeometry(s: seq<Float>, m: Prims, j: nat)
    requires |s| % 3 == 0 && 3 * j + 3 <= |s|
    ensures forall i :: 0 <= i < |s| ==> Blade(s, SimpleBlade, m)[i].Finite?
    ensures var v, w := VertexAt(s, j), VertexAt(Blade(s, SimpleBlade, m), j);
      !InBand(SimpleBlade, v.y) ==> w == Vertex(Sanitized(v.x), Sanitized(v.y), Sanitized(v.z))
    ensures var v, w := VertexAt(s, j), VertexAt(Blade(s, SimpleBlade, m), j);
      InBand(SimpleBlade, v.y) && v.x.Finite? ==>
        var y := v.y.value + 0.06;
        var hr := y / 0.12;
        && 0.0 <= y <= 0.12 && 0.0 <= hr <= 1.0
        && w.x == Finite(v.x.value * (m.cos(hr * PI * 0.45) * 0.9))
        && w.z == Finite(0.015 * m.pow25(hr) + 0.001 * m.sin(2.0 * PI * hr))
        && (hr <= 0.7 ==> w.y == Finite(y))
        && (hr > 0.7 ==> w.y == Finite(y - 0.008 * ((hr - 0.7) / 0.3) * ((hr - 0.7) / 0.3)))
  {
    BladeGeometry(s, SimpleBlade, m, j);
  }

  /** Inside the band the simple blade is at most 0.9 times as wide as the
      plane it was cut from. */
  lemma SimpleBladeNarrows(s: seq<Float>, m: Prims, j: nat)
    requires Lawful(m)
    requires |s| % 3 == 0 && 3 * j + 3 <= |s|
    requires InBand(SimpleBlade, VertexAt(s, j).y) && VertexAt(s, j).x.Finite?
    ensures var x' := VertexAt(Blade(s, SimpleBlade, m), j).x;
      x'.Finite? && Abs(x'.value) <= 0.9 * Abs(VertexAt(s, j).x.value)
  {
    BladeNarrows(s, SimpleBlade, m, j);
  }

  // ---------------------------------------------------------------------------
  // Jittered grid of blade records

  /** One rendered blade: position, Euler rotation, uniform scale factor and
      colour. */
  datatype PatchBlade = PatchBlade(position: Vec3, rotation: Vec3, scale: real, color: Hsl)

  const PatchSize: real := 3.0
  const PatchDensity: nat := 70

  /** Random draws per cell: two jitters, three Euler angles, the scale and
      three colour components. */
  const DrawsPerBlade: nat := 9

  /** The record of grid cell (x, z), built from the draws numbered k to k + 8
      in the order the loop body takes them; `ground` gives the height at the
      jittered position. */
  function PlaceBlade(size: real, density: nat, ground: (real, real) -> real, draws: nat -> real,
                      x: nat, z: nat, k: nat): (b: PatchBlade)
    ensures b.position.y == ground(b.position.x, b.position.z)
  {
    var spacing := Spacing(size, density);
    var posX := Jittered(x as real * spacing - size / 2.0, draws(k), spacing);
    var posZ := Jittered(z as real * spacing - size / 2.0, draws(k + 1), spacing);
    PatchBlade(Vec3(posX, ground(posX, posZ), posZ),
               Vec3((draws(k + 2) - 0.5) * 0.3, draws(k + 3) * PI * 2.0, (draws(k + 4) - 0.5) * 0.3),
               0.8 + draws(k + 5) * 0.4,
               Hsl(105.0 + draws(k + 6) * 25.0, 35.0 + draws(k + 7) * 20.0, 28.0 + draws(k + 8) * 12.0))
  }

  function BladeFn(size: real, density: nat, ground: (real, real) -> real, draws: nat -> real)
    : (nat, nat, nat) -> PatchBlade
  {
    (x: nat, z: nat, k: nat) => PlaceBlade(size, density, ground, draws, x, z, k)
  }

  /** The scale a blade's mesh is drawn with: 1.1 s wide, 1.3 s tall, s deep. */
  function RenderedScale(b: PatchBlade): (v: Vec3)
    ensures 0.8 <= b.scale < 1.2 ==>
      && 0.88 <= v.x < 1.32 && 1.04 <= v.y < 1.56 && v.z == b.scale
      && v.y > v.x > v.z
  {
    Vec3(b.scale * 1.1, b.scale * 1.3, b.scale)
  }

  /** A cell's blade stands within a quarter spacing of its grid point on both
      axes, on the ground at its own jittered position. */
  lemma BladePosition(size: real, density: nat, ground: (real, real) -> real, draws: nat -> real,
                      x: nat, z: nat, k: nat)
    requires UnitDraws(draws) && size > 0.0 && density > 0
    ensures var spacing := Spacing(size, density);
      var p := PlaceBlade(size, density, ground, draws, x, z, k).position;
      && spacing == size / density as real && spacing > 0.0
      && -spacing / 4.0 <= p.x - (x as real * spacing - size / 2.0) < spacing / 4.0
      && -spacing / 4.0 <= p.z - (z as real * spacing - size / 2.0) < spacing / 4.0
      && p.y == ground(p.x, p.z)
  {
  }

  /** A blade's leans lie in [-0.15, 0.15), its yaw in [0, 2 PI), its scale in
      [0.8, 1.2), and its colour in hue [105, 130), saturation [35, 55),
      lightness [28, 40). */
  lemma BladeAttributes(size: real, density: nat, ground: (real, real) -> real, draws: nat -> real,
                        x: nat, z: nat, k: nat)
    requires UnitDraws(draws)
    ensures var b := PlaceBlade(size, density, ground, draws, x, z, k);
      && -0.15 <= b.rotation.x < 0.15 && 0.0 <= b.rotation.y < 2.0 * PI && -0.15 <= b.rotation.z < 0.15
      && 0.8 <= b.scale < 1.2
      && 105.0 <= b.color.hue < 130.0
      && 35.0 <= b.color.saturation < 55.0
      && 28.0 <= b.color.lightness < 40.0
  {
    assert draws(k + 3) * PI * 2.0 < 2.0 * PI by {
      assert draws(k + 3) * (2.0 * PI) < 1.0 * (2.0 * PI);
    }
  }

  /** Flat ground: every blade of the patch stands at height 0. */
  function Flat(): (real, real) -> real
  {
    (x: real, z: real) => 0.0
  }

  /** The `grassData` loops: one record per cell of the 70 x 70 grid over the
      3 m patch, x outer and z inner. */
  method GrassData(draws: nat -> real) returns (blades: seq<PatchBlade>)
    ensures blades == GridCells(PatchDensity, DrawsPerBlade, BladeFn(PatchSize, PatchDensity, Flat(), draws))
  {
    blades := PlaceGrid(PatchDensity, DrawsPerBlade, BladeFn(PatchSize, PatchDensity, Flat(), draws));
  }

  /** The patch holds 4900 blades; blade x * 70 + z is the record of cell
      (x, z), standing at height 0 within a quarter of the 3/70 spacing of its
      grid point. */
  lemma PatchCell(draws: nat -> real, x: nat, z: nat)
    requires UnitDraws(draws) && x < PatchDensity && z < PatchDensity
    ensures var blades := GridCells(PatchDensity, DrawsPerBlade, BladeFn(PatchSize, PatchDensity, Flat(), draws));
      && |blades| == 4900
      && x * 70 + z < 4900
      && var p := blades[x * 70 + z].position;
         && p.y == 0.0
         && -3.0 / 280.0 <= p.x - (x as real * (3.0 / 70.0) - 1.5) < 3.0 / 280.0
         && -3.0 / 280.0 <= p.z - (z as real * (3.0 / 70.0) - 1.5) < 3.0 / 280.0
  {
    var f := BladeFn(PatchSize, PatchDensity, Flat(), draws);
    GridLayout(PatchDensity, DrawsPerBlade, f, x, z);
    var k := DrawsPerBlade * (x * PatchDensity + z);
    BladePosition(PatchSize, PatchDensity, Flat(), draws, x, z, k);
    assert Spacing(PatchSize, PatchDensity) == 3.0 / 70.0;
  }
}
