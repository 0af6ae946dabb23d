/** The heightmap passes: a vertex loop over a plane's position buffer that
    writes a height, computed from the first two components, into the third
    component of every vertex (the plane is later rotated so that this
    component points up).
 */
module Heightmap {
  import opened VertexBuffer

  /** One iteration: `positions[i + 2] = height(positions[i], positions[i + 1])`. */
  function Lift(height: (real, real) -> real): Vertex<real> -> Vertex<real>
  {
    (v: Vertex<real>) => Vertex(v.x, v.y, height(v.x, v.y))
  }

  /** The position buffer after the pass: same length, every vertex keeps its
      first two components and gets the height of them as its third. */
  function Heightmap(s: seq<real>, height: (real, real) -> real): (r: seq<real>)
    requires |s| % 3 == 0
    ensures |r| == |s|
    ensures forall j :: 0 <= j && 3 * j + 3 <= |s| ==>
      VertexAt(r, j) == Vertex(s[3 * j], s[3 * j + 1], height(s[3 * j], s[3 * j + 1]))
  {
    var r := MapVertices(s, Lift(height));
    assert forall j :: 0 <= j && 3 * j + 3 <= |s| ==>
      VertexAt(r, j) == Vertex(s[3 * j], s[3 * j + 1], height(s[3 * j], s[3 * j + 1])) by {
      forall j | 0 <= j && 3 * j + 3 <= |s|
        ensures VertexAt(r, j) == Vertex(s[3 * j], s[3 * j + 1], height(s[3 * j], s[3 * j + 1]))
      {
        MapVerticesAt(s, Lift(height), j);
      }
    }
    r
  }

  /** The pass itself, in place. */
  method HeightmapPass(a: array<real>, height: (real, real) -> real)
    requires a.Length % 3 == 0
    modifies a
    ensures a[..] == Heightmap(old(a[..]), height)
  {
    MapVerticesInPlace(a, Lift(height));
  }

  /** The pass keeps the first two components of every vertex and sets the
      third to the height at those two. */
  lemma HeightmapVertex(s: seq<real>, height: (real, real) -> real, j: nat)
    requires |s| % 3 == 0 && 3 * j + 3 <= |s|
    ensures |Heightmap(s, height)| == |s|
    ensures Heightmap(s, height)[3 * j] == s[3 * j]
    ensures Heightmap(s, height)[3 * j + 1] == s[3 * j + 1]
    ensures Heightmap(s, height)[3 * j + 2] == height(s[3 * j], s[3 * j + 1])
  {
    MapVerticesAt(s, Lift(height), j);
  }

  /** Two vertices at the same (x, y) get the same height: the height depends on
      nothing but the coordinates (and whatever the height function captured when
      it was built). */
  lemma HeightmapConsistent(s: seq<real>, height: (real, real) -> real, i: nat, j: nat)
    requires |s| % 3 == 0 && 3 * i + 3 <= |s| && 3 * j + 3 <= |s|
    requires s[3 * i] == s[3 * j] && s[3 * i + 1] == s[3 * j + 1]
    ensures Heightmap(s, height)[3 * i + 2] == Heightmap(s, height)[3 * j + 2]
  {
    HeightmapVertex(s, height, i);
    HeightmapVertex(s, height, j);
  }
}
