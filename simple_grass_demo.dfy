/** The 3 cm test patch: blades 2 mm apart on a square grid, each jittered,
    turned, leaned and stretched to a random height between 1 and 2 cm.
 */
module SimpleGrassDemo {
  import opened Numerics
  import opened Grid

  const PatchSize: real := 0.03
  const BladeSpacing: real := 0.002

  /** `Math.floor(patchSize / spacing)`. */
  const BladesPerRow: nat := (PatchSize / BladeSpacing).Floor

  /** 0.03 / 0.002 is exactly 15, so a row holds 15 blades. */
  lemma FifteenPerRow()
    ensures BladesPerRow == 15
  {
    assert PatchSize / BladeSpacing == 15.0;
  }

  /** One blade: position, Euler rotation and per-axis scale. */
  datatype SimpleBlade = SimpleBlade(position: Vec3, rotation: Vec3, scale: Vec3)

  /** Random draws per blade: two jitters, yaw, two leans and the height. */
  const DrawsPerBlade: nat := 6

  /** The blade of grid cell (x, z), built from the draws numbered k to k + 5
      in the order the loop body takes them (the yaw before the leans). */
  function PlaceBlade(draws: nat -> real, x: nat, z: nat, k: nat): (b: SimpleBlade)
    ensures b.position.y == 0.0
    ensures b.scale.x == 1.0 && b.scale.z == 1.0
  {
    var posX := (x as real * BladeSpacing - PatchSize / 2.0) + Centered(draws(k), BladeSpacing) * 0.3;
    var posZ := (z as real * BladeSpacing - PatchSize / 2.0) + Centered(draws(k + 1), BladeSpacing) * 0.3;
    var height := 0.01 + draws(k + 5) * 0.01;
    SimpleBlade(Vec3(posX, 0.0, posZ),
                Vec3((draws(k + 3) - 0.5) * 0.2, draws(k + 2) * PI * 2.0, (draws(k + 4) - 0.5) * 0.2),
                Vec3(1.0, height / 0.015, 1.0))
  }

  function BladeFn(draws: nat -> real): (nat, nat, nat) -> SimpleBlade
  {
    (x: nat, z: nat, k: nat) => PlaceBlade(draws, x, z, k)
  }

  /** The `grassBlades` loops: x outer, z inner, one record pushed per cell. */
  method GrassBlades(draws: nat -> real) returns (blades: seq<SimpleBlade>)
    ensures blades == GridCells(BladesPerRow, DrawsPerBlade, BladeFn(draws))
  {
    blades := PlaceGrid(BladesPerRow, DrawsPerBlade, BladeFn(draws));
  }

  /** A blade lies within 0.15 spacing (0.3 mm) of its grid point on both axes,
      on the ground; its yaw is in [0, 2 PI), its leans in [-0.1, 0.1), and its
      scale stretches only y, by height / 0.015 in [2/3, 4/3). */
  lemma BladeRanges(draws: nat -> real, x: nat, z: nat, k: nat)
    requires UnitDraws(draws)
    ensures var b := PlaceBlade(draws, x, z, k);
      && -0.0003 <= b.position.x - (x as real * 0.002 - 0.015) < 0.0003
      && -0.0003 <= b.position.z - (z as real * 0.002 - 0.015) < 0.0003
      && b.position.y == 0.0
      && 0.0 <= b.rotation.y < 2.0 * PI
      && -0.1 <= b.rotation.x < 0.1 && -0.1 <= b.rotation.z < 0.1
      && b.scale.x == 1.0 && b.scale.z == 1.0
      && 2.0 / 3.0 <= b.scale.y < 4.0 / 3.0
  {
    assert draws(k + 2) * PI * 2.0 < 2.0 * PI by {
      assert draws(k + 2) * (2.0 * PI) < 1.0 * (2.0 * PI);
    }
  }

  /** The patch holds 15 x 15 = 225 blades, blade x * 15 + z being the one of
      cell (x, z), built from the six draws after those of all earlier cells. */
  lemma PatchCell(draws: nat -> real, x: nat, z: nat)
    requires x < 15 && z < 15
    ensures var blades := GridCells(BladesPerRow, DrawsPerBlade, BladeFn(draws));
      && |blades| == 225
      && blades[x * 15 + z] == PlaceBlade(draws, x, z, 6 * (x * 15 + z))
  {
    FifteenPerRow();
    GridLayout(BladesPerRow, DrawsPerBlade, BladeFn(draws), x, z);
  }
}
