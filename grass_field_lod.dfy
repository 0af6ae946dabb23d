/** The level-of-detail grass field: three instanced meshes (near, middle,
    far) with blade geometries of decreasing detail and decreasing instance
    counts, each scattered at random over the field; every frame a mesh is shown
    only within its level's distance, and the near visible meshes sway.
 */
module GrassFieldLOD {
  import opened Numerics
  import opened VertexBuffer
  import opened BladeShape
  import opened InstanceBuffer
  import opened Grid

  const DefaultCount: nat := 3000
  const DefaultFieldSize: real := 50.0

  // ---------------------------------------------------------------------------
  // Blade geometry

  datatype Detail = High | Medium | Low

  /** The plane's (width, height) segment counts for each detail tag. */
  function Segments(d: Detail): (r: (nat, nat))
    ensures 1 <= r.0 <= 2 && 2 <= r.1 <= 8
    ensures d == High <==> r == (2, 8)
    ensures d == Medium <==> r == (1, 4)
    ensures d == Low <==> r == (1, 2)
  {
    match d
    case High => (2, 8)
    case Medium => (1, 4)
    case Low => (1, 2)
  }

  /** A more detailed tag never has fewer segments in either direction. */
  lemma SegmentsByDetail(d: Detail)
    ensures Segments(Low).0 <= Segments(d).0 <= Segments(High).0
    ensures Segments(Low).1 <= Segments(d).1 <= Segments(High).1
  {
  }

  /** The fixed shaping constants: a 0.4 tall blade, bend 0.05, ripple 0.003,
      droop 0.02. */
  const LodBlade: ShapeParams := ShapeParams(0.4, 0.05, 0.003, 0.02)

  /** `createGrassBlade`: the shaping loop and the clean-up loop over the
      plane's positions (whatever its segment counts). */
  method CreateGrassBlade(positions: array<Float>, m: Prims)
    requires positions.Length % 3 == 0
    modifies positions
    ensures positions[..] == Blade(old(positions[..]), LodBlade, m)
  {
    BuildBlade(positions, LodBlade, m);
  }

  /** The finished blade: every entry is finite; a vertex whose shifted y
      (y + 0.2) is outside [0, 0.4] only loses its non-finite entries; a vertex
      inside (with finite x) is tapered, bent by 0.05 hr^2.5 + 0.003 sin(2 PI hr)
      and drooped by 0.02 ((hr - 0.7) / 0.3)^2 above hr = 0.7. */
  lemma LodBladeGeometry(s: seq<Float>, m: Prims, j: nat)
    requires |s| % 3 == 0 && 3 * j + 3 <= |s|
    ensures forall i :: 0 <= i < |s| ==> Blade(s, LodBlade, m)[i].Finite?
    ensures var v, w := VertexAt(s, j), VertexAt(Blade(s, LodBlade, m), j);
      !InBand(LodBlade, v.y) ==> w == Vertex(Sanitized(v.x), Sanitized(v.y), Sanitized(v.z))
    ensures var v, w := VertexAt(s, j), VertexAt(Blade(s, LodBlade, m), j);
      InBand(LodBlade, v.y) && v.x.Finite? ==>
        var y := v.y.value + 0.2;
        var hr := y / 0.4;
        && 0.0 <= y <= 0.4 && 0.0 <= hr <= 1.0
        && w.x == Finite(v.x.value * (m.cos(hr * PI * 0.45) * 0.9))
        && w.z == Finite(0.05 * m.pow25(hr) + 0.003 * m.sin(2.0 * PI * hr))
        && (hr <= 0.7 ==> w.y == Finite(y))
        && (hr > 0.7 ==> w.y == Finite(y - 0.02 * ((hr - 0.7) / 0.3) * ((hr - 0.7) / 0.3)))
  {
    BladeGeometry(s, LodBlade, m, j);
  }

  // ---------------------------------------------------------------------------
  // Level table

  /** One level: the camera distance up to which it is shown, its instance
      count and its geometry detail. */
  datatype Level = Level(distance: real, count: nat, detail: Detail)

  /** `Math.floor(count * fraction)`. */
  function Share(count: nat, fraction: real): (n: nat)
    requires 0.0 <= fraction
    ensures n as real <= count as real * fraction < n as real + 1.0
  {
    assert count as real * fraction >= 0.0;
    (count as real * fraction).Floor
  }

  /** The three levels: 40% of the instances up to distance 30 at high detail,
      40% up to 80 at medium detail, 20% up to 150 at low detail. */
  function Levels(count: nat): (r: seq<Level>)
    ensures |r| == 3
    ensures r[0].distance < r[1].distance < r[2].distance
    ensures r[0].count + r[1].count + r[2].count <= count
    ensures forall i :: 0 <= i < 3 ==> r[i].count as real <= count as real * 0.4
    ensures r[0].distance == 30.0 && r[1].distance == 80.0 && r[2].distance == 150.0
    ensures r[0].count == r[1].count == Share(count, 0.4) && r[2].count == Share(count, 0.2)
    ensures r[0].detail == High && r[1].detail == Medium && r[2].detail == Low
  {
    [Level(30.0, Share(count, 0.4), High),
     Level(80.0, Share(count, 0.4), Medium),
     Level(150.0, Share(count, 0.2), Low)]
  }

  /** The default 3000 instances split as 1200 near, 1200 middle and 600 far. */
  lemma DefaultLevels()
    ensures var levels := Levels(DefaultCount);
      levels[0].count == 1200 && levels[1].count == 1200 && levels[2].count == 600
  {
    assert DefaultCount as real * 0.4 == 1200.0;
    assert DefaultCount as real * 0.2 == 600.0;
  }

  // ---------------------------------------------------------------------------
  // Per-level placement

  /** One scattered blade: its transform and its colour. */
  datatype Placed = Placed(transform: Transform, color: Hsl)

  /** Draws per blade: x, z, yaw, two leans, base scale, height factor and three
      colour components. */
  const DrawsPerBlade: nat := 10

  /** The blade built from the draws numbered k to k + 9, in the order the loop
      body takes them (the yaw is drawn before the two leans). */
  function PlaceBlade(fieldSize: real, noise: (real, real) -> real, draws: nat -> real, k: nat): (b: Placed)
    ensures var p := b.transform.position; p.y == noise(p.x * 0.01, p.z * 0.01) * 2.0
    ensures b.transform.scale.x == b.transform.scale.z
  {
    var x := Centered(draws(k), fieldSize);
    var z := Centered(draws(k + 1), fieldSize);
    var baseScale := 0.7 + draws(k + 5) * 0.5;
    Placed(Transform(Vec3(x, noise(x * 0.01, z * 0.01) * 2.0, z),
                     Vec3((draws(k + 3) - 0.5) * 0.15, draws(k + 2) * PI * 2.0, (draws(k + 4) - 0.5) * 0.15),
                     Vec3(baseScale, baseScale * (0.8 + draws(k + 6) * 0.4), baseScale)),
           Hsl(105.0 + draws(k + 7) * 25.0, 35.0 + draws(k + 8) * 20.0, 28.0 + draws(k + 9) * 12.0))
  }

  function BladeFn(fieldSize: real, noise: (real, real) -> real, draws: nat -> real): (nat, nat) -> Placed
  {
    (i: nat, k: nat) => PlaceBlade(fieldSize, noise, draws, k)
  }

  /** The blades of one level. The three levels take their draws one after the
      other from the same stream: `draws` here is the stream after the draws of
      the earlier levels. */
  function LevelBlades(level: Level, fieldSize: real, noise: (real, real) -> real, draws: nat -> real)
    : (r: seq<Placed>)
    ensures |r| == level.count
  {
    Scattered(level.count, DrawsPerBlade, BladeFn(fieldSize, noise, draws))
  }

  function MatrixOf(pk: Packing): Placed -> seq<real>
  {
    (b: Placed) => pk.matrix(b.transform)
  }

  function ColorOf(pk: Packing): Placed -> seq<real>
  {
    (b: Placed) => pk.rgb(b.color)
  }

  /** The placement loop of one level: blade i's matrix at i * 16 and its
      colour at i * 3. */
  method PlaceLevel(level: Level, fieldSize: real, noise: (real, real) -> real, draws: nat -> real,
                    pk: Packing)
    returns (matrices: array<real>, colors: array<real>)
    requires PackingLawful(pk)
    ensures fresh(matrices) && fresh(colors)
    ensures matrices[..] == Flatten(LevelBlades(level, fieldSize, noise, draws), MatrixOf(pk))
    ensures colors[..] == Flatten(LevelBlades(level, fieldSize, noise, draws), ColorOf(pk))
  {
    var count := level.count;
    matrices := new real[count * 16](_ => 0.0);
    colors := new real[count * 3](_ => 0.0);
    ghost var blades := LevelBlades(level, fieldSize, noise, draws);
    for i := 0 to count
      invariant matrices[..16 * i] == Flatten(blades[..i], MatrixOf(pk))
      invariant colors[..3 * i] == Flatten(blades[..i], ColorOf(pk))
    {
      var blade := PlaceBlade(fieldSize, noise, draws, DrawsPerBlade * i);
      assert blades[i] == blade;
      StoreSlot(matrices, blades, MatrixOf(pk), 16, i, pk.matrix(blade.transform));
      StoreSlot(colors, blades, ColorOf(pk), 3, i, pk.rgb(blade.color));
    }
    assert matrices[..] == matrices[..16 * count];
    assert colors[..] == colors[..3 * count];
    assert blades[..count] == blades;
  }

  /** Blade i of any list is stored at matrix offset 16 * i and colour offset
      3 * i, and the buffers hold 16 and 3 floats per blade. */
  lemma LevelLayout(blades: seq<Placed>, pk: Packing, i: nat)
    requires PackingLawful(pk) && i < |blades|
    ensures |Flatten(blades, MatrixOf(pk))| == 16 * |blades|
    ensures |Flatten(blades, ColorOf(pk))| == 3 * |blades|
    ensures Flatten(blades, MatrixOf(pk))[16 * i .. 16 * i + 16] == pk.matrix(blades[i].transform)
    ensures Flatten(blades, ColorOf(pk))[3 * i .. 3 * i + 3] == pk.rgb(blades[i].color)
  {
    forall t ensures |MatrixOf(pk)(t)| == 16 && |ColorOf(pk)(t)| == 3 {
      assert MatrixOf(pk)(t) == pk.matrix(t.transform);
      assert ColorOf(pk)(t) == pk.rgb(t.color);
    }
    FlattenAt(blades, MatrixOf(pk), 16, i);
    FlattenAt(blades, ColorOf(pk), 3, i);
  }

  /** Blade i of a level is the blade built from draws 10 i to 10 i + 9. */
  lemma LevelBladeAt(level: Level, fieldSize: real, noise: (real, real) -> real, draws: nat -> real, i: nat)
    requires i < level.count
    ensures LevelBlades(level, fieldSize, noise, draws)[i] == PlaceBlade(fieldSize, noise, draws, DrawsPerBlade * i)
  {
  }

  /** A blade stands inside the field, [-fieldSize/2, fieldSize/2) on both
      axes, at height 2 noise(0.01 x, 0.01 z), which is at most 2 in magnitude. */
  lemma BladePosition(fieldSize: real, noise: (real, real) -> real, draws: nat -> real, k: nat)
    requires UnitDraws(draws) && NoiseBounded(noise) && fieldSize > 0.0
    ensures var p := PlaceBlade(fieldSize, noise, draws, k).transform.position;
      && -fieldSize / 2.0 <= p.x < fieldSize / 2.0
      && -fieldSize / 2.0 <= p.z < fieldSize / 2.0
      && p.y == noise(p.x * 0.01, p.z * 0.01) * 2.0
      && -2.0 <= p.y <= 2.0
  {
  }

  /** In the default 50 x 50 field every blade of a level lies within 25 of
      the origin on both axes. */
  lemma DefaultLevelBlade(level: Level, noise: (real, real) -> real, draws: nat -> real, i: nat)
    requires UnitDraws(draws) && NoiseBounded(noise) && i < level.count
    ensures var p := LevelBlades(level, DefaultFieldSize, noise, draws)[i].transform.position;
      -25.0 <= p.x < 25.0 && -25.0 <= p.z < 25.0 && -2.0 <= p.y <= 2.0
  {
    LevelBladeAt(level, DefaultFieldSize, noise, draws, i);
    BladePosition(DefaultFieldSize, noise, draws, DrawsPerBlade * i);
  }

  /** A blade's leans lie in [-0.075, 0.075), its yaw in [0, 2 PI), its base
      scale b in [0.7, 1.2) on x and z, its height scale in [0.8 b, 1.2 b), and
      its colour in hue [105, 130), saturation [35, 55), lightness [28, 40). */
  lemma BladeAttributes(fieldSize: real, noise: (real, real) -> real, draws: nat -> real, k: nat)
    requires UnitDraws(draws)
    ensures var b := PlaceBlade(fieldSize, noise, draws, k);
      var t := b.transform;
      && -0.075 <= t.rotation.x < 0.075 && 0.0 <= t.rotation.y < 2.0 * PI && -0.075 <= t.rotation.z < 0.075
      && 0.7 <= t.scale.x < 1.2 && t.scale.z == t.scale.x
      && 0.8 * t.scale.x <= t.scale.y < 1.2 * t.scale.x
      && 105.0 <= b.color.hue < 130.0
      && 35.0 <= b.color.saturation < 55.0
      && 28.0 <= b.color.lightness < 40.0
  {
    var base, f := 0.7 + draws(k + 5) * 0.5, 0.8 + draws(k + 6) * 0.4;
    assert base * f >= base * 0.8;
    assert base * f < base * 1.2;
    assert draws(k + 2) * PI * 2.0 < 2.0 * PI by {
      assert draws(k + 2) * (2.0 * PI) < 1.0 * (2.0 * PI);
    }
  }

  // ---------------------------------------------------------------------------
  // Per-frame level switching and sway

  /** The part of an instanced mesh the frame callback changes. */
  class LodMesh {
    var visible: bool
    var rotationX: real
    var rotationZ: real

    function State(): MeshState
      reads this
    {
      MeshState(visible, rotationX, rotationZ)
    }

    constructor ()
      ensures State() == MeshState(true, 0.0, 0.0)
    {
      visible, rotationX, rotationZ := true, 0.0, 0.0;
    }

    /** One mesh's share of the frame callback. */
    method Update(threshold: real, d: real, m: Prims, windTime: real)
      modifies this
      ensures State() == MeshAfter(old(State()), threshold, d, m, windTime)
    {
      visible := d <= threshold;
      if visible && d < 50.0 {
        var strength := SwayStrength(d);
        rotationZ := m.sin(windTime) * 0.006 * strength;
        rotationX := m.cos(windTime * 0.7) * 0.004 * strength;
      }
    }
  }

  datatype MeshState = MeshState(visible: bool, rotationX: real, rotationZ: real)

  /** `Math.min(1, 30 / distance)`; at distance 0 the quotient is +Infinity and
      the minimum is 1. */
  function SwayStrength(d: real): (s: real)
    ensures d >= 0.0 ==> 0.0 < s <= 1.0
    ensures 0.0 <= d <= 30.0 ==> s == 1.0
  {
    if d == 0.0 then 1.0 else Min(1.0, 30.0 / d)
  }

  /** What one frame leaves in a mounted mesh of a level shown up to
      `threshold`, at camera distance d, with the wind clock at windTime. */
  function MeshAfter(before: MeshState, threshold: real, d: real, m: Prims, windTime: real): (after: MeshState)
    ensures after.visible <==> d <= threshold
    ensures !(after.visible && d < 50.0) ==>
      after.rotationX == before.rotationX && after.rotationZ == before.rotationZ
  {
    var visible := d <= threshold;
    if visible && d < 50.0 then
      MeshState(visible, m.cos(windTime * 0.7) * 0.004 * SwayStrength(d),
                m.sin(windTime) * 0.006 * SwayStrength(d))
    else
      MeshState(visible, before.rotationX, before.rotationZ)
  }

  /** A mesh is shown exactly when the camera is within its level's distance;
      it sways only when shown and nearer than 50, by at most 0.004 about x and
      0.006 about z; otherwise its rotation is left as it was. */
  lemma MeshAfterRules(before: MeshState, threshold: real, d: real, m: Prims, windTime: real)
    requires Lawful(m) && d >= 0.0
    ensures var after := MeshAfter(before, threshold, d, m, windTime);
      && (after.visible <==> d <= threshold)
      && (after.visible && d < 50.0 ==> Abs(after.rotationX) <= 0.004 && Abs(after.rotationZ) <= 0.006)
      && (!(after.visible && d < 50.0) ==>
            after.rotationX == before.rotationX && after.rotationZ == before.rotationZ)
  {
    var s := SwayStrength(d);
    BoundedProduct(m.cos(windTime * 0.7), 0.004 * s, 1.0);
    BoundedProduct(m.sin(windTime), 0.006 * s, 1.0);
    assert m.cos(windTime * 0.7) * 0.004 * s == m.cos(windTime * 0.7) * (0.004 * s);
    assert m.sin(windTime) * 0.006 * s == m.sin(windTime) * (0.006 * s);
  }

  /** With the camera at one distance d from all three meshes, the shown levels
      are upward closed: if a nearer level is shown, every farther one is. At
      d = 50 the near level is hidden and the other two are shown. */
  lemma VisibleLevels(count: nat, d: real)
    ensures var levels := Levels(count);
      forall i, j :: 0 <= i <= j < 3 && d <= levels[i].distance ==> d <= levels[j].distance
    ensures var levels := Levels(count);
      d == 50.0 ==> !(d <= levels[0].distance) && d <= levels[1].distance && d <= levels[2].distance
  {
    var levels := Levels(count);
    assert levels[0].distance < levels[1].distance < levels[2].distance;
  }

  /** The field's frame state: the wind clock, the mesh references (null when a
      mesh is not mounted) and the level table. */
  class LodField {
    var windTime: real
    var meshes: seq<LodMesh?>
    const levels: seq<Level>

    constructor (count: nat)
      ensures windTime == 0.0 && meshes == [] && levels == Levels(count)
    {
      windTime := 0.0;
      meshes := [];
      levels := Levels(count);
    }

    /** The mounted meshes. */
    ghost function Mounted(): set<LodMesh>
      reads this
    {
      set i | 0 <= i < |meshes| && meshes[i] != null :: meshes[i]
    }

    /** The frame callback: the wind clock advances by half the frame time,
        then every mounted mesh gets its visibility and, if near, its sway, from
        its own camera distance. */
    method Tick(delta: real, distances: seq<real>, m: Prims)
      requires |distances| == |meshes| <= |levels|
      requires forall i, j :: 0 <= i < j < |meshes| && meshes[i] != null ==> meshes[i] != meshes[j]
      modifies this, Mounted()
      ensures windTime == old(windTime) + delta * 0.5
      ensures meshes == old(meshes)
      ensures forall i :: 0 <= i < |meshes| && meshes[i] != null ==>
        meshes[i].State() == MeshAfter(old(meshes[i].State()), levels[i].distance, distances[i], m, windTime)
    {
      windTime := windTime + delta * 0.5;
      var i := 0;
      while i < |meshes|
        invariant 0 <= i <= |meshes|
        invariant windTime == old(windTime) + delta * 0.5 && meshes == old(meshes)
        invariant forall j :: 0 <= j < i && meshes[j] != null ==>
          meshes[j].State() == MeshAfter(old(meshes[j].State()), levels[j].distance, distances[j], m, windTime)
        invariant forall j :: i <= j < |meshes| && meshes[j] != null ==> meshes[j].State() == old(meshes[j].State())
      {
        var mesh := meshes[i];
        if mesh != null {
          mesh.Update(levels[i].distance, distances[i], m, windTime);
        }
        i := i + 1;
      }
    }
  }
}
