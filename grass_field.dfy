/** The shader-driven grass field: one bent plane blade, instances scattered
    uniformly over the field on a noise-displaced ground, and a wind direction
    uniform that drifts with the clock.
 */
module GrassField {
  import opened Numerics
  import opened VertexBuffer
  import opened InstanceBuffer
  import opened Grid

  const DefaultCount: nat := 50000
  const DefaultFieldSize: real := 100.0

  // ---------------------------------------------------------------------------
  // Blade geometry

  /** One iteration of the bend loop: `x += sin((y + 1) * 0.3) * 0.1`. */
  function Bend(m: Prims, v: Vertex<real>): (w: Vertex<real>)
    ensures w.y == v.y && w.z == v.z
    ensures Lawful(m) ==> -0.1 <= w.x - v.x <= 0.1
  {
    Vertex(v.x + m.sin((v.y + 1.0) * 0.3) * 0.1, v.y, v.z)
  }

  function BendFn(m: Prims): Vertex<real> -> Vertex<real>
  {
    v => Bend(m, v)
  }

  /** The bend loop over the plane's positions. */
  method BendBlade(positions: array<real>, m: Prims)
    requires positions.Length % 3 == 0
    modifies positions
    ensures positions[..] == MapVertices(old(positions[..]), BendFn(m))
  {
    MapVerticesInPlace(positions, BendFn(m));
  }

  /** Every vertex keeps its y and z; its x moves by 0.1 sin(0.3 (y + 1)), never
      more than 0.1. */
  lemma BentVertex(s: seq<real>, m: Prims, j: nat)
    requires Lawful(m)
    requires |s| % 3 == 0 && 3 * j + 3 <= |s|
    ensures var v, w := VertexAt(s, j), VertexAt(MapVertices(s, BendFn(m)), j);
      && w.y == v.y && w.z == v.z
      && w.x - v.x == 0.1 * m.sin(0.3 * (v.y + 1.0))
      && -0.1 <= w.x - v.x <= 0.1
  {
    var v := VertexAt(s, j);
    MapVerticesAt(s, BendFn(m), j);
    assert (v.y + 1.0) * 0.3 == 0.3 * (v.y + 1.0);
  }

  // ---------------------------------------------------------------------------
  // Instance matrices

  /** Random draws per instance: x, z, yaw and scale. */
  const DrawsPerBlade: nat := 4

  /** The transform of the instance built from draws k to k + 3: a position
      on the ground `noise2D(x * 0.01, z * 0.01) * 3`, a yaw and a uniform scale
      (the other two angles of the reused dummy object stay 0). */
  function PlaceBlade(fieldSize: real, noise: (real, real) -> real, draws: nat -> real, k: nat): (t: Transform)
    ensures t.position.y == noise(t.position.x * 0.01, t.position.z * 0.01) * 3.0
    ensures t.rotation.x == 0.0 && t.rotation.z == 0.0
    ensures t.scale.x == t.scale.y == t.scale.z
  {
    var x := Centered(draws(k), fieldSize);
    var z := Centered(draws(k + 1), fieldSize);
    var scale := 0.8 + draws(k + 3) * 0.4;
    Transform(Vec3(x, noise(x * 0.01, z * 0.01) * 3.0, z),
              Vec3(0.0, draws(k + 2) * PI * 2.0, 0.0),
              Vec3(scale, scale, scale))
  }

  function BladeFn(fieldSize: real, noise: (real, real) -> real, draws: nat -> real): (nat, nat) -> Transform
  {
    (i: nat, k: nat) => PlaceBlade(fieldSize, noise, draws, k)
  }

  /** The transforms of the `count` instances. */
  function Blades(count: nat, fieldSize: real, noise: (real, real) -> real, draws: nat -> real)
    : (r: seq<Transform>)
    ensures |r| == count
  {
    Scattered(count, DrawsPerBlade, BladeFn(fieldSize, noise, draws))
  }

  /** The placement loop: instance i's matrix at offset i * 16. */
  method FillMatrices(count: nat, fieldSize: real, noise: (real, real) -> real, draws: nat -> real,
                      pk: Packing)
    returns (matrices: array<real>)
    requires PackingLawful(pk)
    ensures fresh(matrices)
    ensures matrices[..] == Flatten(Blades(count, fieldSize, noise, draws), pk.matrix)
  {
    matrices := new real[count * 16](_ => 0.0);
    ghost var blades := Blades(count, fieldSize, noise, draws);
    for i := 0 to count
      invariant matrices[..16 * i] == Flatten(blades[..i], pk.matrix)
    {
      var t := PlaceBlade(fieldSize, noise, draws, DrawsPerBlade * i);
      assert blades[i] == t;
      StoreSlot(matrices, blades, pk.matrix, 16, i, pk.matrix(t));
    }
    assert matrices[..] == matrices[..16 * count];
    assert blades[..count] == blades;
  }

  /** There are exactly `count` matrices of 16 floats, instance i's at 16 i. */
  lemma MatrixLayout(blades: seq<Transform>, pk: Packing, i: nat)
    requires PackingLawful(pk) && i < |blades|
    ensures |Flatten(blades, pk.matrix)| == 16 * |blades|
    ensures Flatten(blades, pk.matrix)[16 * i .. 16 * i + 16] == pk.matrix(blades[i])
  {
    FlattenAt(blades, pk.matrix, 16, i);
  }

  /** Instance i is the one built from draws 4 i to 4 i + 3. */
  lemma BladeAt(count: nat, fieldSize: real, noise: (real, real) -> real, draws: nat -> real, i: nat)
    requires i < count
    ensures Blades(count, fieldSize, noise, draws)[i] == PlaceBlade(fieldSize, noise, draws, DrawsPerBlade * i)
  {
  }

  /** An instance stands inside the field, [-fieldSize/2, fieldSize/2) on both
      axes, at height 3 noise(0.01 x, 0.01 z) (at most 3 in magnitude), turned
      by a yaw in [0, 2 PI) only, and scaled uniformly by a factor in [0.8, 1.2). */
  lemma BladePlacement(fieldSize: real, noise: (real, real) -> real, draws: nat -> real, k: nat)
    requires UnitDraws(draws) && NoiseBounded(noise) && fieldSize > 0.0
    ensures var t := PlaceBlade(fieldSize, noise, draws, k);
      && -fieldSize / 2.0 <= t.position.x < fieldSize / 2.0
      && -fieldSize / 2.0 <= t.position.z < fieldSize / 2.0
      && t.position.y == noise(t.position.x * 0.01, t.position.z * 0.01) * 3.0
      && -3.0 <= t.position.y <= 3.0
      && t.rotation.x == 0.0 && t.rotation.z == 0.0 && 0.0 <= t.rotation.y < 2.0 * PI
      && t.scale.x == t.scale.y == t.scale.z && 0.8 <= t.scale.x < 1.2
  {
    assert draws(k + 2) * PI * 2.0 < 2.0 * PI by {
      assert draws(k + 2) * (2.0 * PI) < 1.0 * (2.0 * PI);
    }
  }

  /** The default field: 50000 instances, each inside the 100 x 100 square
      around the origin and at most 3 above or below it. */
  lemma DefaultField(noise: (real, real) -> real, draws: nat -> real, i: nat)
    requires UnitDraws(draws) && NoiseBounded(noise) && i < DefaultCount
    ensures var blades := Blades(DefaultCount, DefaultFieldSize, noise, draws);
      && |blades| == 50000
      && -50.0 <= blades[i].position.x < 50.0 && -50.0 <= blades[i].position.z < 50.0
      && -3.0 <= blades[i].position.y <= 3.0
  {
    BladeAt(DefaultCount, DefaultFieldSize, noise, draws, i);
    BladePlacement(DefaultFieldSize, noise, draws, DrawsPerBlade * i);
  }

  // ---------------------------------------------------------------------------
  // Frame update

  /** The uniforms of the field's shader material that the frame callback sets. */
  class FieldMaterial {
    var time: real
    var windDirection: Vec2

    constructor ()
      ensures time == 0.0 && windDirection == Vec2(1.0, 0.0)
    {
      time := 0.0;
      windDirection := Vec2(1.0, 0.0);
    }
  }

  /** The wind direction at a clock reading t: with wt = t / 2, the pair
      (0.5 sin(wt) + 0.5, 0.5 cos(1.3 wt) + 0.5), each in [0, 1]. */
  function WindDirection(m: Prims, elapsed: real): (d: Vec2)
    ensures Lawful(m) ==> 0.0 <= d.x <= 1.0 && 0.0 <= d.y <= 1.0
  {
    var windTime := elapsed * 0.5;
    Vec2(m.sin(windTime) * 0.5 + 0.5, m.cos(windTime * 1.3) * 0.5 + 0.5)
  }

  /** The frame callback: when the material is mounted, its time becomes the
      clock reading and its wind direction the drifting pair. */
  method Animate(material: FieldMaterial?, elapsed: real, m: Prims)
    modifies material
    ensures material != null ==>
      material.time == elapsed && material.windDirection == WindDirection(m, elapsed)
  {
    if material != null {
      material.time := elapsed;
      var windTime := elapsed * 0.5;
      material.windDirection := Vec2(m.sin(windTime) * 0.5 + 0.5, m.cos(windTime * 1.3) * 0.5 + 0.5);
    }
  }
}
