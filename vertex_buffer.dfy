/** Flat vertex-position buffers, as a geometry's `position` attribute lays them
    out: vertex j occupies entries 3j, 3j+1 and 3j+2 (x, y, z).

    Every per-vertex loop of the renderer (`for (i = 0; i < positions.length;
    i += 3)`) reads one vertex, computes its new coordinates and writes them back
    in place; `MapVertices` is what such a loop leaves in the buffer, and
    `MapVerticesInPlace` is the loop. The clean-up loop that the blade builders
    run afterwards visits every entry (`CleanUp`).
 */
module VertexBuffer {
  import opened Numerics

  datatype Vertex<T> = Vertex(x: T, y: T, z: T)

  /** Vertex j of a flat buffer. */
  function VertexAt<T>(s: seq<T>, j: nat): Vertex<T>
    requires 3 * j + 3 <= |s|
  {
    Vertex(s[3 * j], s[3 * j + 1], s[3 * j + 2])
  }

  /** The buffer after every vertex v has been replaced by f(v), in order. */
  function MapVertices<T>(s: seq<T>, f: Vertex<T> -> Vertex<T>): (r: seq<T>)
    requires |s| % 3 == 0
    ensures |r| == |s|
    decreases |s|
  {
    if s == [] then []
    else
      var n := |s| - 3;
      var v := f(Vertex(s[n], s[n + 1], s[n + 2]));
      MapVertices(s[..n], f) + [v.x, v.y, v.z]
  }

  /** Each vertex of the result is f applied to the same vertex of the input:
      the pass visits every vertex exactly once, in stride 3. */
  lemma {:induction false} MapVerticesAt<T>(s: seq<T>, f: Vertex<T> -> Vertex<T>, j: nat)
    requires |s| % 3 == 0 && 3 * j + 3 <= |s|
    ensures VertexAt(MapVertices(s, f), j) == f(VertexAt(s, j))
    decreases |s|
  {
    var n := |s| - 3;
    if 3 * j < n {
      MapVerticesAt(s[..n], f, j);
      assert VertexAt(s[..n], j) == VertexAt(s, j);
    }
  }

  /** The per-vertex loop over a position buffer, updating it in place. */
  method MapVerticesInPlace<T>(a: array<T>, f: Vertex<T> -> Vertex<T>)
    requires a.Length % 3 == 0
    modifies a
    ensures a[..] == MapVertices(old(a[..]), f)
  {
    ghost var s := a[..];
    ghost var mapped := MapVertices(s, f);
    var i, j := 0, 0;
    while i < a.Length
      invariant 0 <= i <= a.Length && i == 3 * j
      invariant forall k :: 0 <= k < i ==> a[k] == mapped[k]
      invariant forall k :: i <= k < a.Length ==> a[k] == s[k]
    {
      var v := f(Vertex(a[i], a[i + 1], a[i + 2]));
      MapVerticesAt(s, f, j);
      a[i], a[i + 1], a[i + 2] := v.x, v.y, v.z;
      i, j := i + 3, j + 1;
    }
    assert a[..] == mapped;
  }

  /** What the clean-up loop leaves in the buffer. */
  function SanitizeAll(s: seq<Float>): (r: seq<Float>)
    ensures |r| == |s|
    ensures forall i :: 0 <= i < |r| ==> r[i].Finite?
    ensures forall i :: 0 <= i < |r| && s[i].Finite? ==> r[i] == s[i]
    ensures forall i :: 0 <= i < |r| && !s[i].Finite? ==> r[i] == Finite(0.0)
  {
    seq(|s|, i requires 0 <= i < |s| => Sanitized(s[i]))
  }

  /** The clean-up loop: every NaN or infinite entry is reset to 0. */
  method CleanUp(a: array<Float>)
    modifies a
    ensures a[..] == SanitizeAll(old(a[..]))
  {
    for i := 0 to a.Length
      invariant forall k :: 0 <= k < i ==> a[k] == Sanitized(old(a[k]))
      invariant forall k :: i <= k < a.Length ==> a[k] == old(a[k])
    {
      if !a[i].Finite? {
        a[i] := Finite(0.0);
      }
    }
  }
}
