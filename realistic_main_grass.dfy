/** The field-sized copy of the realistic patch: the height-proportional blade
    and the patch's jittered grid placer, spread over the whole field with the
    blades standing on a noise-displaced ground.
 */
module RealisticMainGrass {
  import opened Numerics
  import opened BladeShape
  import opened Grid
  import RealisticGrassDemo

  const DefaultFieldSize: real := 100.0
  const DefaultDensity: nat := 15
  const DefaultBladeHeight: real := 0.4

  /** `createGrassBlade`: the shaping loop with amplitudes proportional to the
      blade height, then the clean-up loop. */
  method CreateGrassBlade(positions: array<Float>, bladeHeight: real, m: Prims)
    requires positions.Length % 3 == 0
    modifies positions
    ensures positions[..] == Blade(old(positions[..]), HeightScaled(bladeHeight), m)
  {
    BuildBlade(positions, HeightScaled(bladeHeight), m);
  }

  /** The ground under the blades: `noise2D(x * 0.01, z * 0.01) * 2`. */
  function NoiseGround(noise: (real, real) -> real): (real, real) -> real
  {
    (x: real, z: real) => noise(x * 0.01, z * 0.01) * 2.0
  }

  function BladeFn(fieldSize: real, density: nat, noise: (real, real) -> real, draws: nat -> real)
    : (nat, nat, nat) -> RealisticGrassDemo.PatchBlade
  {
    RealisticGrassDemo.BladeFn(fieldSize, density, NoiseGround(noise), draws)
  }

  /** The `grassData` loops over the density x density grid. */
  method GrassData(fieldSize: real, density: nat, noise: (real, real) -> real, draws: nat -> real)
    returns (blades: seq<RealisticGrassDemo.PatchBlade>)
    ensures blades == GridCells(density, RealisticGrassDemo.DrawsPerBlade, BladeFn(fieldSize, density, noise, draws))
  {
    blades := PlaceGrid(density, RealisticGrassDemo.DrawsPerBlade, BladeFn(fieldSize, density, noise, draws));
  }

  /** The grid holds density^2 blades; blade x * density + z belongs to cell
      (x, z), lies within a quarter spacing (fieldSize / density) of its grid
      point on both axes, stands at 2 noise(0.01 X, 0.01 Z) of its own jittered
      (X, Z), at most 2 in magnitude, and has the patch's attribute ranges. */
  lemma FieldCell(fieldSize: real, density: nat, noise: (real, real) -> real, draws: nat -> real,
                  x: nat, z: nat)
    requires UnitDraws(draws) && NoiseBounded(noise) && fieldSize > 0.0
    requires x < density && z < density
    ensures var blades := GridCells(density, RealisticGrassDemo.DrawsPerBlade, BladeFn(fieldSize, density, noise, draws));
      && |blades| == density * density
      && x * density + z < density * density
      && var b := blades[x * density + z];
         var spacing := fieldSize / density as real;
         && spacing > 0.0
         && -spacing / 4.0 <= b.position.x - (x as real * spacing - fieldSize / 2.0) < spacing / 4.0
         && -spacing / 4.0 <= b.position.z - (z as real * spacing - fieldSize / 2.0) < spacing / 4.0
         && b.position.y == noise(b.position.x * 0.01, b.position.z * 0.01) * 2.0
         && -2.0 <= b.position.y <= 2.0
         && -0.15 <= b.rotation.x < 0.15 && 0.0 <= b.rotation.y < 2.0 * PI && -0.15 <= b.rotation.z < 0.15
         && 0.8 <= b.scale < 1.2
  {
    var f := BladeFn(fieldSize, density, noise, draws);
    GridLayout(density, RealisticGrassDemo.DrawsPerBlade, f, x, z);
    var k := RealisticGrassDemo.DrawsPerBlade * (x * density + z);
    var b := RealisticGrassDemo.PlaceBlade(fieldSize, density, NoiseGround(noise), draws, x, z, k);
    assert GridCells(density, RealisticGrassDemo.DrawsPerBlade, f)[x * density + z] == b;
    NoiseBlade(fieldSize, density, noise, draws, x, z, k);
    RealisticGrassDemo.BladeAttributes(fieldSize, density, NoiseGround(noise), draws, x, z, k);
  }

  /** A blade of the field stands at 2 noise(0.01 X, 0.01 Z) of its own
      position, within a quarter spacing of its grid point. */
  lemma NoiseBlade(fieldSize: real, density: nat, noise: (real, real) -> real, draws: nat -> real,
                   x: nat, z: nat, k: nat)
    requires UnitDraws(draws) && NoiseBounded(noise) && fieldSize > 0.0 && density > 0
    ensures var p := RealisticGrassDemo.PlaceBlade(fieldSize, density, NoiseGround(noise), draws, x, z, k).position;
      var spacing := fieldSize / density as real;
      && spacing > 0.0
      && -spacing / 4.0 <= p.x - (x as real * spacing - fieldSize / 2.0) < spacing / 4.0
      && -spacing / 4.0 <= p.z - (z as real * spacing - fieldSize / 2.0) < spacing / 4.0
      && p.y == noise(p.x * 0.01, p.z * 0.01) * 2.0
      && -2.0 <= p.y <= 2.0
  {
    var p := RealisticGrassDemo.PlaceBlade(fieldSize, density, NoiseGround(noise), draws, x, z, k).position;
    RealisticGrassDemo.BladePosition(fieldSize, density, NoiseGround(noise), draws, x, z, k);
    assert p.y == NoiseGround(noise)(p.x, p.z);
  }

  /** The default field: a 15 x 15 grid of 225 blades over the 100 x 100
      square, each within a quarter spacing (5/3) of its grid point and at most
      2 above or below the origin. The default blade is 0.4 tall, with bend,
      ripple and droop amplitudes 0.05, 0.0032 and 0.0268. */
  lemma DefaultField(noise: (real, real) -> real, draws: nat -> real, x: nat, z: nat)
    requires UnitDraws(draws) && NoiseBounded(noise) && x < DefaultDensity && z < DefaultDensity
    ensures var blades := GridCells(DefaultDensity, RealisticGrassDemo.DrawsPerBlade,
                                    BladeFn(DefaultFieldSize, DefaultDensity, noise, draws));
      && |blades| == 225
      && var p := blades[x * DefaultDensity + z].position;
         && -5.0 / 3.0 <= p.x - (x as real * 20.0 / 3.0 - 50.0) < 5.0 / 3.0
         && -5.0 / 3.0 <= p.z - (z as real * 20.0 / 3.0 - 50.0) < 5.0 / 3.0
         && -2.0 <= p.y <= 2.0
    ensures HeightScaled(DefaultBladeHeight) == ShapeParams(0.4, 0.05, 0.0032, 0.0268)
  {
    FieldCell(DefaultFieldSize, DefaultDensity, noise, draws, x, z);
    assert DefaultFieldSize / DefaultDensity as real == 20.0 / 3.0;
  }
}
