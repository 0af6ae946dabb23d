/** The instanced grass patch of the optimised demo: a noise-displaced ground
    plane, one shaped blade geometry shared by every instance, the per-instance
    buffers (transform matrices, colours, wind phases) filled from a jittered
    grid, the wind displacement its vertex shader applies, and the per-frame
    update of the shader's uniforms.
 */
module OptimizedGrassDemo {
  import opened Numerics
  import opened VertexBuffer
  import opened BladeShape
  import opened InstanceBuffer
  import opened Grid
  import Heightmap

  // ---------------------------------------------------------------------------
  // Ground

  /** `getTerrainHeight`: four octaves of the noise at frequencies 2, 4, 8 and
      16 with weights 0.08, 0.04, 0.02 and 0.01. */
  function TerrainHeight(noise: (real, real) -> real, x: real, z: real): (h: real)
    ensures NoiseBounded(noise) ==> Abs(h) <= 0.15
  {
    noise(x * 2.0, z * 2.0) * 0.08 + noise(x * 4.0, z * 4.0) * 0.04
    + noise(x * 8.0, z * 8.0) * 0.02 + noise(x * 16.0, z * 16.0) * 0.01
  }

  function TerrainFn(noise: (real, real) -> real): (real, real) -> real
  {
    (x, z) => TerrainHeight(noise, x, z)
  }

  /** The ground pass over the plane's positions. */
  method BuildTerrain(positions: array<real>, noise: (real, real) -> real)
    requires positions.Length % 3 == 0
    modifies positions
    ensures positions[..] == Heightmap.Heightmap(old(positions[..]), TerrainFn(noise))
  {
    Heightmap.HeightmapPass(positions, TerrainFn(noise));
  }

  /** Each ground vertex keeps its plane coordinates and its third component
      becomes the terrain height there, at most 0.15 in magnitude. */
  lemma TerrainVertex(s: seq<real>, noise: (real, real) -> real, j: nat)
    requires NoiseBounded(noise)
    requires |s| % 3 == 0 && 3 * j + 3 <= |s|
    ensures var t := Heightmap.Heightmap(s, TerrainFn(noise));
      && |t| == |s|
      && t[3 * j] == s[3 * j] && t[3 * j + 1] == s[3 * j + 1]
      && t[3 * j + 2] == TerrainHeight(noise, s[3 * j], s[3 * j + 1])
      && Abs(t[3 * j + 2]) <= 0.15
  {
    Heightmap.HeightmapVertex(s, TerrainFn(noise), j);
  }

  // ---------------------------------------------------------------------------
  // Blade geometry

  /** The blade builder: shaping loop, then clean-up loop. */
  method BuildBladeGeometry(positions: array<Float>, bladeHeight: real, m: Prims)
    requires positions.Length % 3 == 0
    modifies positions
    ensures positions[..] == Blade(old(positions[..]), HeightScaled(bladeHeight), m)
  {
    BuildBlade(positions, HeightScaled(bladeHeight), m);
  }

  // ---------------------------------------------------------------------------
  // Instance buffers

  /** One grass instance: its transform, its colour and its wind phase. */
  datatype Instance = Instance(transform: Transform, color: Hsl, random: real)

  /** Random draws per grid cell: two jitters, three Euler angles, the scale,
      three colour components and the wind phase. */
  const DrawsPerCell: nat := 10

  /** The instance of grid cell (x, z), built from the draws numbered k to
      k + 9 in the order the loop body takes them. It stands on the terrain at
      its own (X, Z), and is drawn 1.1 times as wide and 1.3 times as tall as
      it is deep. */
  function PlaceCell(patchSize: real, density: nat, noise: (real, real) -> real, draws: nat -> real,
                     x: nat, z: nat, k: nat): (r: Instance)
    ensures var p := r.transform.position; p.y == TerrainHeight(noise, p.x, p.z)
    ensures r.transform.scale.x == 1.1 * r.transform.scale.z
    ensures r.transform.scale.y == 1.3 * r.transform.scale.z
  {
    var spacing := Spacing(patchSize, density);
    var posX := Jittered(x as real * spacing - patchSize / 2.0, draws(k), spacing);
    var posZ := Jittered(z as real * spacing - patchSize / 2.0, draws(k + 1), spacing);
    var scale := 0.8 + draws(k + 5) * 0.4;
    Instance(
      Transform(Vec3(posX, TerrainHeight(noise, posX, posZ), posZ),
                Vec3((draws(k + 2) - 0.5) * 0.3, draws(k + 3) * PI * 2.0, (draws(k + 4) - 0.5) * 0.3),
                Vec3(scale * 1.1, scale * 1.3, scale)),
      Hsl(105.0 + draws(k + 6) * 25.0, 35.0 + draws(k + 7) * 20.0, 28.0 + draws(k + 8) * 12.0),
      draws(k + 9))
  }

  function CellFn(patchSize: real, density: nat, noise: (real, real) -> real, draws: nat -> real)
    : (nat, nat, nat) -> Instance
  {
    (x: nat, z: nat, k: nat) => PlaceCell(patchSize, density, noise, draws, x, z, k)
  }

  /** The instances in the order the nested loops produce them. */
  function Instances(patchSize: real, density: nat, noise: (real, real) -> real, draws: nat -> real)
    : (r: seq<Instance>)
    ensures |r| == density * density
  {
    GridCells(density, DrawsPerCell, CellFn(patchSize, density, noise, draws))
  }

  /** Cell (x, z) is instance x * density + z and reads the draws that follow
      those of every earlier cell. */
  lemma CellAt(patchSize: real, density: nat, noise: (real, real) -> real, draws: nat -> real, x: nat, z: nat)
    requires x < density && z < density
    ensures x * density + z < density * density
    ensures Instances(patchSize, density, noise, draws)[x * density + z]
         == PlaceCell(patchSize, density, noise, draws, x, z, DrawsPerCell * (x * density + z))
  {
    GridLayout(density, DrawsPerCell, CellFn(patchSize, density, noise, draws), x, z);
  }

  /** The three per-instance slots: 16 matrix floats, 3 colour floats, 1 phase. */
  function MatrixOf(pk: Packing): Instance -> seq<real>
  {
    (i: Instance) => pk.matrix(i.transform)
  }

  function ColorOf(pk: Packing): Instance -> seq<real>
  {
    (i: Instance) => pk.rgb(i.color)
  }

  function PhaseOf(): Instance -> seq<real>
  {
    (i: Instance) => [i.random]
  }

  lemma SlotWidths(pk: Packing)
    requires PackingLawful(pk)
    ensures forall t :: |MatrixOf(pk)(t)| == 16
    ensures forall t :: |ColorOf(pk)(t)| == 3
    ensures forall t :: |PhaseOf()(t)| == 1
  {
    forall t ensures |MatrixOf(pk)(t)| == 16 && |ColorOf(pk)(t)| == 3 {
      assert MatrixOf(pk)(t) == pk.matrix(t.transform);
      assert ColorOf(pk)(t) == pk.rgb(t.color);
    }
  }

  /** The instance-data loop: x outer, z inner, a running index, and the three
      buffers written at index * 16, index * 3 and index. */
  method FillInstanceData(patchSize: real, density: nat, noise: (real, real) -> real,
                          draws: nat -> real, pk: Packing)
    returns (matrices: array<real>, colors: array<real>, randoms: array<real>)
    requires PackingLawful(pk)
    ensures fresh(matrices) && fresh(colors) && fresh(randoms)
    ensures matrices[..] == Flatten(Instances(patchSize, density, noise, draws), MatrixOf(pk))
    ensures colors[..] == Flatten(Instances(patchSize, density, noise, draws), ColorOf(pk))
    ensures randoms[..] == Flatten(Instances(patchSize, density, noise, draws), PhaseOf())
  {
    var count := density * density;
    matrices := new real[count * 16](_ => 0.0);
    colors := new real[count * 3](_ => 0.0);
    randoms := new real[count](_ => 0.0);
    ghost var cells := Instances(patchSize, density, noise, draws);
    var x := 0;
    while x < density
      invariant 0 <= x <= density
      invariant Stored(matrices, colors, randoms, cells, x * density, pk)
    {
      FillRow(matrices, colors, randoms, patchSize, density, noise, draws, pk, x);
      x := x + 1;
    }
    assert matrices[..] == matrices[..16 * count];
    assert colors[..] == colors[..3 * count];
    assert randoms[..] == randoms[..count];
    assert cells[..count] == cells;
  }

  /** The inner loop for row x: cells (x, 0) to (x, density - 1) go to the
      slots after those of the earlier rows. */
  method FillRow(matrices: array<real>, colors: array<real>, randoms: array<real>,
                 patchSize: real, density: nat, noise: (real, real) -> real,
                 draws: nat -> real, pk: Packing, x: nat)
    requires PackingLawful(pk) && x < density
    requires matrices != colors && matrices != randoms && colors != randoms
    requires Stored(matrices, colors, randoms, Instances(patchSize, density, noise, draws), x * density, pk)
    modifies matrices, colors, randoms
    ensures Stored(matrices, colors, randoms, Instances(patchSize, density, noise, draws), (x + 1) * density, pk)
  {
    ghost var cells := Instances(patchSize, density, noise, draws);
    MulMono(x + 1, density, density);
    var index := x * density;
    var z := 0;
    while z < density
      invariant 0 <= z <= density && index == x * density + z && index <= |cells|
      invariant Stored(matrices, colors, randoms, cells, index, pk)
    {
      var blade := NextCell(patchSize, density, noise, draws, x, z);
      StoreInstance(matrices, colors, randoms, cells, index, blade, pk);
      index := index + 1;
      z := z + 1;
    }
  }

  /** The instance the inner loop builds for cell (x, z), which is instance
      x * density + z of the field. */
  method NextCell(patchSize: real, density: nat, noise: (real, real) -> real, draws: nat -> real,
                  x: nat, z: nat) returns (blade: Instance)
    requires x < density && z < density
    ensures x * density + z < |Instances(patchSize, density, noise, draws)|
    ensures blade == Instances(patchSize, density, noise, draws)[x * density + z]
  {
    CellAt(patchSize, density, noise, draws, x, z);
    blade := PlaceCell(patchSize, density, noise, draws, x, z, DrawsPerCell * (x * density + z));
  }

  /** The first `index` instances of `cells` are in the three buffers. */
  ghost predicate Stored(matrices: array<real>, colors: array<real>, randoms: array<real>,
                         cells: seq<Instance>, index: nat, pk: Packing)
    reads matrices, colors, randoms
  {
    && index <= |cells|
    && matrices.Length == 16 * |cells| && colors.Length == 3 * |cells| && randoms.Length == |cells|
    && matrices[..16 * index] == Flatten(cells[..index], MatrixOf(pk))
    && colors[..3 * index] == Flatten(cells[..index], ColorOf(pk))
    && randoms[..index] == Flatten(cells[..index], PhaseOf())
  }

  /** One iteration of the inner loop body: the instance's matrix, colour and
      phase go to slots 16 * index, 3 * index and index. */
  method StoreInstance(matrices: array<real>, colors: array<real>, randoms: array<real>,
                       ghost cells: seq<Instance>, index: nat, blade: Instance, pk: Packing)
    requires PackingLawful(pk) && index < |cells| && cells[index] == blade
    requires matrices != colors && matrices != randoms && colors != randoms
    requires Stored(matrices, colors, randoms, cells, index, pk)
    modifies matrices, colors, randoms
    ensures Stored(matrices, colors, randoms, cells, index + 1, pk)
  {
    StoreSlot(matrices, cells, MatrixOf(pk), 16, index, pk.matrix(blade.transform));
    StoreSlot(colors, cells, ColorOf(pk), 3, index, pk.rgb(blade.color));
    StoreSlot(randoms, cells, PhaseOf(), 1, index, [blade.random]);
  }

  /** Instance i of any instance list is stored at matrix offset 16 * i, colour
      offset 3 * i and phase offset i, and the buffers hold 16, 3 and 1 floats
      per instance. */
  lemma InstanceLayout(cells: seq<Instance>, pk: Packing, i: nat)
    requires PackingLawful(pk) && i < |cells|
    ensures |Flatten(cells, MatrixOf(pk))| == 16 * |cells|
    ensures |Flatten(cells, ColorOf(pk))| == 3 * |cells|
    ensures |Flatten(cells, PhaseOf())| == |cells|
    ensures Flatten(cells, MatrixOf(pk))[16 * i .. 16 * i + 16] == pk.matrix(cells[i].transform)
    ensures Flatten(cells, ColorOf(pk))[3 * i .. 3 * i + 3] == pk.rgb(cells[i].color)
    ensures Flatten(cells, PhaseOf())[i] == cells[i].random
  {
    SlotWidths(pk);
    FlattenAt(cells, MatrixOf(pk), 16, i);
    FlattenAt(cells, ColorOf(pk), 3, i);
    FlattenAt(cells, PhaseOf(), 1, i);
    assert Flatten(cells, PhaseOf())[i .. i + 1] == [cells[i].random];
  }

  /** Where instance (x, z) stands: within a quarter spacing of its grid point
      on both axes, on the terrain height at its own jittered (X, Z). */
  lemma InstancePlacement(patchSize: real, density: nat, noise: (real, real) -> real, draws: nat -> real,
                          x: nat, z: nat)
    requires UnitDraws(draws) && NoiseBounded(noise) && patchSize > 0.0 && x < density && z < density
    ensures x * density + z < density * density
    ensures var spacing := Spacing(patchSize, density);
      var t := Instances(patchSize, density, noise, draws)[x * density + z].transform;
      && spacing > 0.0
      && -spacing / 4.0 <= t.position.x - (x as real * spacing - patchSize / 2.0) < spacing / 4.0
      && -spacing / 4.0 <= t.position.z - (z as real * spacing - patchSize / 2.0) < spacing / 4.0
      && t.position.y == TerrainHeight(noise, t.position.x, t.position.z)
      && Abs(t.position.y) <= 0.15
  {
    CellAt(patchSize, density, noise, draws, x, z);
    CellJitter(patchSize, density, noise, draws, x, z, DrawsPerCell * (x * density + z));
  }

  /** The jitter of one cell, for any position in the draw stream. */
  lemma CellJitter(patchSize: real, density: nat, noise: (real, real) -> real, draws: nat -> real,
                   x: nat, z: nat, k: nat)
    requires UnitDraws(draws) && patchSize > 0.0 && density > 0
    ensures var spacing := Spacing(patchSize, density);
      var t := PlaceCell(patchSize, density, noise, draws, x, z, k).transform;
      && spacing > 0.0
      && -spacing / 4.0 <= t.position.x - (x as real * spacing - patchSize / 2.0) < spacing / 4.0
      && -spacing / 4.0 <= t.position.z - (z as real * spacing - patchSize / 2.0) < spacing / 4.0
  {
    var spacing := Spacing(patchSize, density);
    assert spacing > 0.0;
  }

  /** The attributes of every instance stay in their ranges: leans in
      [-0.15, 0.15), yaw in [0, 2 PI), scale s in [0.8, 1.2) applied as
      (1.1 s, 1.3 s, s), hue in [105, 130), saturation in [35, 55), lightness in
      [28, 40) and wind phase in [0, 1). */
  lemma InstanceAttributes(patchSize: real, density: nat, noise: (real, real) -> real, draws: nat -> real,
                           i: nat)
    requires UnitDraws(draws) && i < density * density
    ensures var b := Instances(patchSize, density, noise, draws)[i];
      var t := b.transform;
      && -0.15 <= t.rotation.x < 0.15 && 0.0 <= t.rotation.y < 2.0 * PI && -0.15 <= t.rotation.z < 0.15
      && 0.8 <= t.scale.z < 1.2 && t.scale.x == 1.1 * t.scale.z && t.scale.y == 1.3 * t.scale.z
      && 105.0 <= b.color.hue < 130.0
      && 35.0 <= b.color.saturation < 55.0
      && 28.0 <= b.color.lightness < 40.0
      && 0.0 <= b.random < 1.0
  {
    var k := DrawsPerCell * i;
    assert Instances(patchSize, density, noise, draws)[i] ==
      PlaceCell(patchSize, density, noise, draws, i / density, i % density, k);
    ScaledDraw(draws(k + 3), 0.0, 2.0 * PI);
    assert draws(k + 3) * PI * 2.0 == 0.0 + draws(k + 3) * (2.0 * PI);
  }

  // ---------------------------------------------------------------------------
  // Vertex shader

  /** The shader's uniforms. */
  datatype Uniforms = Uniforms(time: real, windStrength: real, windSpeed: real,
                               windDirection: Vec2, gustIntensity: real)

  /** The uniforms the material is created with. */
  const DefaultUniforms: Uniforms := Uniforms(0.0, 0.3, 1.0, Vec2(1.0, 0.0), 1.0)

  /** The height weight: the blade-local y mapped from [-0.06, 0.06] onto
      [0, 1], clamped, and squared. */
  function WindEffect(y: real): (w: real)
    ensures 0.0 <= w <= 1.0
    ensures y <= -0.06 ==> w == 0.0
    ensures y >= 0.06 ==> w == 1.0
  {
    var hr := Clamp01((y + 0.06) / 0.12);
    assert hr * hr <= hr * 1.0;
    hr * hr
  }

  /** The weight is stronger at the top: it never decreases as y grows. */
  lemma {:induction false} WindEffectMonotone(y1: real, y2: real)
    requires y1 <= y2
    ensures WindEffect(y1) <= WindEffect(y2)
  {
    var h1, h2 := Clamp01((y1 + 0.06) / 0.12), Clamp01((y2 + 0.06) / 0.12);
    assert h1 <= h2;
    calc {
      WindEffect(y1);
    ==
      h1 * h1;
    <=  { assert 0.0 <= h1; }
      h1 * h2;
    <=  { assert 0.0 <= h2; }
      h2 * h2;
    ==
      WindEffect(y2);
    }
  }

  function Gust(m: Prims, u: Uniforms, instanceRandom: real): real
  {
    1.0 + m.sin(u.time * 0.5 + instanceRandom * 6.28) * 0.3 * u.gustIntensity
  }

  function WindX(m: Prims, phase: real): real
  {
    m.sin(phase) * 0.7 + m.sin(phase * 2.3) * 0.3
  }

  function WindZ(m: Prims, phase: real): real
  {
    m.sin(phase + 0.5) * 0.7 + m.sin(phase * 1.7) * 0.3
  }

  /** `windPhase`: the instance's own phase offset added to the wind clock. */
  function Phase(u: Uniforms, instanceRandom: real): real
  {
    u.time * u.windSpeed + instanceRandom * 3.14159
  }

  /** The horizontal push along one axis of the wind direction. */
  function Push(m: Prims, u: Uniforms, instanceRandom: real, y: real, dir: real, pattern: real): real
  {
    dir * pattern * u.windStrength * WindEffect(y) * Gust(m, u, instanceRandom) * 0.02
  }

  /** The downward sag. */
  function Sag(m: Prims, u: Uniforms, instanceRandom: real, y: real): real
  {
    Abs(WindX(m, Phase(u, instanceRandom)) * u.windStrength * WindEffect(y) * 0.01)
  }

  /** The displaced blade-local position of one vertex of one instance: the
      wind pushes it sideways and never lifts it. */
  function Displace(m: Prims, u: Uniforms, instanceRandom: real, pos: Vec3): (r: Vec3)
    ensures r.y <= pos.y
  {
    var phase := Phase(u, instanceRandom);
    Vec3(pos.x + Push(m, u, instanceRandom, pos.y, u.windDirection.x, WindX(m, phase)),
         pos.y - Sag(m, u, instanceRandom, pos.y),
         pos.z + Push(m, u, instanceRandom, pos.y, u.windDirection.y, WindZ(m, phase)))
  }

  /** Without wind strength nothing moves. */
  lemma DisplaceCalm(m: Prims, u: Uniforms, instanceRandom: real, pos: Vec3)
    requires u.windStrength == 0.0
    ensures Displace(m, u, instanceRandom, pos) == pos
  {
    var phase := Phase(u, instanceRandom);
    CalmPush(m, u, instanceRandom, pos.y, u.windDirection.x, WindX(m, phase));
    CalmPush(m, u, instanceRandom, pos.y, u.windDirection.y, WindZ(m, phase));
    assert WindX(m, phase) * u.windStrength == 0.0;
  }

  lemma CalmPush(m: Prims, u: Uniforms, instanceRandom: real, y: real, dir: real, pattern: real)
    requires u.windStrength == 0.0
    ensures Push(m, u, instanceRandom, y, dir, pattern) == 0.0
  {
    assert dir * pattern * u.windStrength == 0.0;
  }

  /** Both wind patterns are weighted averages of sines: in [-1, 1]. */
  lemma WindPatternRange(m: Prims, phase: real)
    requires Lawful(m)
    ensures -1.0 <= WindX(m, phase) <= 1.0 && -1.0 <= WindZ(m, phase) <= 1.0
  {
    assert -1.0 <= m.sin(phase) <= 1.0 && -1.0 <= m.sin(phase * 2.3) <= 1.0;
    assert -1.0 <= m.sin(phase + 0.5) <= 1.0 && -1.0 <= m.sin(phase * 1.7) <= 1.0;
  }

  lemma SagBound(windX: real, strength: real, effect: real)
    requires -1.0 <= windX <= 1.0 && 0.0 <= effect <= 1.0
    ensures Abs(windX * strength * effect * 0.01) <= 0.01 * Abs(strength)
  {
    BoundedProduct(windX, strength, 1.0);
    BoundedProduct(effect, windX * strength, 1.0);
    assert windX * strength * effect == effect * (windX * strength);
  }

  /** The sag: y never rises, and drops by at most 0.01 |windStrength|. */
  lemma DisplaceSag(m: Prims, u: Uniforms, instanceRandom: real, pos: Vec3)
    requires Lawful(m)
    ensures pos.y - 0.01 * Abs(u.windStrength) <= Displace(m, u, instanceRandom, pos).y <= pos.y
  {
    var wx, e := WindX(m, Phase(u, instanceRandom)), WindEffect(pos.y);
    WindPatternRange(m, Phase(u, instanceRandom));
    SagBound(wx, u.windStrength, e);
    assert Sag(m, u, instanceRandom, pos.y) == Abs(wx * u.windStrength * e * 0.01);
  }

  /** The gust factor is exactly 1 with gusts off, and lies in [0.7, 1.3] with
      gusts at full intensity. */
  lemma GustRange(m: Prims, u: Uniforms, instanceRandom: real)
    requires Lawful(m)
    ensures u.gustIntensity == 0.0 ==> Gust(m, u, instanceRandom) == 1.0
    ensures u.gustIntensity == 1.0 ==> 0.7 <= Gust(m, u, instanceRandom) <= 1.3
  {
    var s := m.sin(u.time * 0.5 + instanceRandom * 6.28);
    assert -1.0 <= s <= 1.0;
    if u.gustIntensity == 0.0 {
      assert s * 0.3 * u.gustIntensity == 0.0;
    }
  }

  /** On a blade built with the default height 0.12 the band the shader assumes
      is off by half a blade: the root (y = 0) already gets weight 0.25 and the
      whole upper half gets the full weight. */
  lemma ShaderWeightOnBuiltBlade(y: real)
    requires 0.0 <= y <= 0.12
    ensures y == 0.0 ==> WindEffect(y) == 0.25
    ensures y >= 0.06 ==> WindEffect(y) == 1.0
    ensures WindEffect(y) >= 0.25
  {
    var hr := Clamp01((y + 0.06) / 0.12);
    assert 0.5 <= hr;
    assert hr * hr >= 0.5 * 0.5 by { assert hr * hr >= 0.5 * hr; }
  }

  // ---------------------------------------------------------------------------
  // Per-frame uniform update

  /** The fields of the shader material that the frame callback writes. */
  class GrassMaterial {
    var time: real
    var windStrength: real
    var windSpeed: real
    var windDirection: Vec2
    var gustIntensity: real

    function Current(): Uniforms
      reads this
    {
      Uniforms(time, windStrength, windSpeed, windDirection, gustIntensity)
    }

    constructor ()
      ensures Current() == DefaultUniforms
    {
      time, windStrength, windSpeed := 0.0, 0.3, 1.0;
      windDirection := Vec2(1.0, 0.0);
      gustIntensity := 1.0;
    }
  }

  /** The wind settings the frame callback reads; the direction is in degrees. */
  datatype WindControls = WindControls(enableWind: bool, windStrength: real, windSpeed: real,
                                       windDirection: real, windGusts: bool)

  /** The uniforms a frame with wind enabled writes. */
  function FrameUniforms(c: WindControls, elapsed: real, m: Prims): (u: Uniforms)
    ensures u.time == elapsed && u.windStrength == c.windStrength && u.windSpeed == c.windSpeed
    ensures Pythagorean(m) ==>
      u.windDirection.x * u.windDirection.x + u.windDirection.y * u.windDirection.y == 1.0
    ensures u.gustIntensity == 1.0 <==> c.windGusts
    ensures u.gustIntensity == 0.0 <==> !c.windGusts
  {
    var theta := c.windDirection * PI / 180.0;
    Uniforms(elapsed, c.windStrength, c.windSpeed, Vec2(m.cos(theta), m.sin(theta)),
             if c.windGusts then 1.0 else 0.0)
  }

  /** The frame callback: with a material and wind enabled every uniform is
      rewritten; otherwise the material is left alone. */
  method AnimateUniforms(material: GrassMaterial?, c: WindControls, elapsed: real, m: Prims)
    modifies material
    ensures material != null && c.enableWind ==> material.Current() == FrameUniforms(c, elapsed, m)
    ensures material != null && !c.enableWind ==> material.Current() == old(material.Current())
  {
    if material != null && c.enableWind {
      var u := FrameUniforms(c, elapsed, m);
      material.time := u.time;
      material.windStrength := u.windStrength;
      material.windSpeed := u.windSpeed;
      material.windDirection := u.windDirection;
      material.gustIntensity := u.gustIntensity;
    }
  }

  /** With gusts switched off, a frame's uniforms give every instance a gust
      factor of exactly 1; switched on, one in [0.7, 1.3]. */
  lemma FrameGust(c: WindControls, elapsed: real, m: Prims, instanceRandom: real)
    requires Lawful(m)
    ensures !c.windGusts ==> Gust(m, FrameUniforms(c, elapsed, m), instanceRandom) == 1.0
    ensures c.windGusts ==> 0.7 <= Gust(m, FrameUniforms(c, elapsed, m), instanceRandom) <= 1.3
  {
    GustRange(m, FrameUniforms(c, elapsed, m), instanceRandom);
  }
}
