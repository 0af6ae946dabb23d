/** The ground mesh of the main scene: a four-octave noise heightmap written
    into a size x size plane, and a slow vertical "breathing" of the mesh.
 */
module Terrain {
  import opened Numerics
  import Heightmap

  /** The height scale of the scene's terrain. */
  const DefaultHeightScale: real := 4.0

  /** The height at plane coordinates (x, y): four octaves of the noise, each
      twice the frequency and half the weight of the one before; with noise in
      [-1, 1], |height| <= (1 + 1/2 + 1/4 + 1/8) * |heightScale|. */
  function Height(noise: (real, real) -> real, heightScale: real, x: real, y: real): (h: real)
    ensures NoiseBounded(noise) ==> Abs(h) <= 1.875 * Abs(heightScale)
  {
    var n1, n2 := noise(x * 0.01, y * 0.01), noise(x * 0.02, y * 0.02);
    var n3, n4 := noise(x * 0.04, y * 0.04), noise(x * 0.08, y * 0.08);
    var h := n1 * heightScale + n2 * heightScale * 0.5 + n3 * heightScale * 0.25 + n4 * heightScale * 0.125;
    assert NoiseBounded(noise) ==> Abs(h) <= 1.875 * Abs(heightScale) by {
      if NoiseBounded(noise) {
        var sum := n1 + n2 * 0.5 + n3 * 0.25 + n4 * 0.125;
        assert Abs(sum) <= 1.875;
        assert h == sum * heightScale;
        BoundedProduct(sum, heightScale, 1.875);
      }
    }
    h
  }

  function HeightFn(noise: (real, real) -> real, heightScale: real): (real, real) -> real
  {
    (x, y) => Height(noise, heightScale, x, y)
  }

  /** With the scene's height scale 4 the terrain stays within 7.5 units of the
      plane. */
  lemma DefaultTerrainHeight(noise: (real, real) -> real, x: real, y: real)
    requires NoiseBounded(noise)
    ensures -7.5 <= Height(noise, DefaultHeightScale, x, y) <= 7.5
  {
    assert Abs(Height(noise, DefaultHeightScale, x, y)) <= 1.875 * 4.0;
  }

  /** The generation loop over the plane's positions. */
  method GenerateHeights(positions: array<real>, noise: (real, real) -> real, heightScale: real)
    requires positions.Length % 3 == 0
    modifies positions
    ensures positions[..] == Heightmap.Heightmap(old(positions[..]), HeightFn(noise, heightScale))
  {
    Heightmap.HeightmapPass(positions, HeightFn(noise, heightScale));
  }

  /** Every vertex of the generated terrain keeps its plane coordinates and
      gets a height bounded by 1.875 * |heightScale|. */
  lemma TerrainVertex(s: seq<real>, noise: (real, real) -> real, heightScale: real, j: nat)
    requires NoiseBounded(noise)
    requires |s| % 3 == 0 && 3 * j + 3 <= |s|
    ensures var t := Heightmap.Heightmap(s, HeightFn(noise, heightScale));
      && |t| == |s|
      && t[3 * j] == s[3 * j] && t[3 * j + 1] == s[3 * j + 1]
      && t[3 * j + 2] == Height(noise, heightScale, s[3 * j], s[3 * j + 1])
      && Abs(t[3 * j + 2]) <= 1.875 * Abs(heightScale)
  {
    Heightmap.HeightmapVertex(s, HeightFn(noise, heightScale), j);
  }

  /** The mesh's vertical offset at elapsed time t. */
  function Breathing(m: Prims, t: real): (y: real)
    ensures Lawful(m) ==> -0.1 <= y <= 0.1
  {
    m.sin(t * 0.1) * 0.1
  }

  /** The part of the terrain mesh the frame callback changes. */
  class TerrainMesh {
    var positionY: real

    constructor ()
      ensures positionY == 0.0
    {
      positionY := 0.0;
    }
  }

  /** The frame callback: when the mesh is mounted its vertical offset becomes
      the breathing offset of the elapsed time, whatever it was before. */
  method BreathingTick(mesh: TerrainMesh?, m: Prims, elapsed: real)
    modifies mesh
    ensures mesh != null ==> mesh.positionY == Breathing(m, elapsed)
  {
    if mesh != null {
      var time := elapsed;
      mesh.positionY := m.sin(time * 0.1) * 0.1;
    }
  }
}
