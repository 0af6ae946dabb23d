/** Per-instance attribute buffers: instance i of a buffer with w floats per
    instance occupies entries w*i .. w*i + w - 1 (16 for a transform matrix, 3 for
    a colour, 1 for the wind-phase random).
 */
module InstanceBuffer {
  import opened Numerics

  /** The buffer holding f(s[0]), f(s[1]), ... back to back. */
  function Flatten<T>(s: seq<T>, f: T -> seq<real>): seq<real>
    decreases |s|
  {
    if s == [] then [] else Flatten(s[..|s| - 1], f) + f(s[|s| - 1])
  }

  /** With w floats per instance, the buffer has w * |s| entries. */
  lemma {:induction false} FlattenLength<T>(s: seq<T>, f: T -> seq<real>, w: nat)
    requires forall t :: |f(t)| == w
    ensures |Flatten(s, f)| == w * |s|
    decreases |s|
  {
    if s != [] {
      var n := |s| - 1;
      FlattenLength(s[..n], f, w);
      assert |f(s[n])| == w;
      assert w * |s| == w * n + w;
    }
  }

  /** Instance k is stored at offset w * k. */
  lemma {:induction false} FlattenAt<T>(s: seq<T>, f: T -> seq<real>, w: nat, k: nat)
    requires forall t :: |f(t)| == w
    requires k < |s|
    ensures |Flatten(s, f)| == w * |s|
    ensures w * k + w <= |Flatten(s, f)|
    ensures Flatten(s, f)[w * k .. w * k + w] == f(s[k])
    decreases |s|
  {
    FlattenLength(s, f, w);
    SlotInside(w, k, |s|);
    var n := |s| - 1;
    var prefix, last := Flatten(s[..n], f), f(s[n]);
    assert Flatten(s, f) == prefix + last;
    FlattenLength(s[..n], f, w);
    if k < n {
      FlattenAt(s[..n], f, w, k);
      SlotInside(w, k, n);
      SliceOfFront(prefix, last, w * k, w * k + w);
      assert s[..n][k] == s[k];
    } else {
      SliceOfBack(prefix, last);
    }
  }

  /** Slot k of w floats ends within the first w * n entries when k < n. */
  lemma SlotInside(w: nat, k: nat, n: nat)
    requires k < n
    ensures w * k + w <= w * n
  {
    MulMono(k + 1, n, w);
    assert (k + 1) * w == w * k + w;
  }

  lemma SliceOfFront(a: seq<real>, b: seq<real>, lo: nat, hi: nat)
    requires lo <= hi <= |a|
    ensures (a + b)[lo..hi] == a[lo..hi]
  {
  }

  lemma SliceOfBack(a: seq<real>, b: seq<real>)
    ensures (a + b)[|a|..|a| + |b|] == b
  {
  }

  /** Appending one instance appends its floats. */
  lemma FlattenSnoc<T>(s: seq<T>, f: T -> seq<real>, k: nat)
    requires k < |s|
    ensures Flatten(s[..k + 1], f) == Flatten(s[..k], f) + f(s[k])
  {
    assert s[..k + 1][..k] == s[..k];
  }

  /** Storing record `index` into its w-float slot extends the prefix of the
      buffer that holds the records before it. */
  method StoreSlot<T>(a: array<real>, ghost cells: seq<T>, f: T -> seq<real>, w: nat, index: nat,
                      block: seq<real>)
    requires index < |cells| && block == f(cells[index]) && |block| == w
    requires w * index + w <= a.Length
    requires a[..w * index] == Flatten(cells[..index], f)
    modifies a
    ensures a[..w * (index + 1)] == Flatten(cells[..index + 1], f)
  {
    FlattenSnoc(cells, f, index);
    WriteBlock(a, w * index, block);
  }

  /** `toArray(buffer, offset)` and the three colour stores: writes a block of
      floats at an offset and leaves every other entry as it was. */
  method WriteBlock(a: array<real>, offset: nat, block: seq<real>)
    requires offset + |block| <= a.Length
    modifies a
    ensures a[..] == old(a[..])[..offset] + block + old(a[..])[offset + |block|..]
    ensures a[..offset + |block|] == old(a[..offset]) + block
  {
    for j := 0 to |block|
      invariant forall i :: 0 <= i < offset ==> a[i] == old(a[i])
      invariant forall i :: 0 <= i < j ==> a[offset + i] == block[i]
      invariant forall i :: offset + j <= i < a.Length ==> a[i] == old(a[i])
    {
      a[offset + j] := block[j];
    }
    assert a[..offset + |block|] == old(a[..offset]) + block;
  }
}

/** The placement patterns: a density x density grid walked with x outer and z
    inner, or a plain count of scattered items; either way each record consumes
    a fixed number of random draws. */
module Grid {
  import opened Numerics

  /** The cells of a density x density grid in the order the nested loops visit
      them; cell(x, z, first) builds the record of cell (x, z) from the draws
      numbered first, first + 1, ... of the random stream. */
  function GridCells<T>(density: nat, perCell: nat, cell: (nat, nat, nat) -> T): (r: seq<T>)
    ensures |r| == density * density
  {
    seq(density * density, k requires 0 <= k < density * density =>
      cell(k / density, k % density, perCell * k))
  }

  /** Cell (x, z) is record number x * density + z, and it uses the draws that
      follow those of all earlier cells. */
  lemma GridLayout<T>(density: nat, perCell: nat, cell: (nat, nat, nat) -> T, x: nat, z: nat)
    requires x < density && z < density
    ensures x * density + z < density * density
    ensures GridCells(density, perCell, cell)[x * density + z] == cell(x, z, perCell * (x * density + z))
  {
    CellIndex(x, z, density);
  }

  /** The running index of the nested loops determines the cell. */
  lemma CellIndex(x: nat, z: nat, density: nat)
    requires x < density && z < density
    ensures x * density + z < density * density
    ensures (x * density + z) / density == x && (x * density + z) % density == z
  {
    MulMono(x + 1, density, density);
    assert x * density + z < (x + 1) * density;
    DivModUnique(x * density + z, density, x, z);
  }

  /** Euclidean division has one quotient and remainder: k = q * d + r with
      0 <= r < d fixes both. */
  lemma DivModUnique(k: nat, d: nat, q: nat, r: nat)
    requires 0 <= r < d && k == q * d + r
    ensures k / d == q && k % d == r
  {
    var q', r' := k / d, k % d;
    assert (q' - q) * d == r - r';
    if q' > q {
      MulMono(1, q' - q, d);
    } else if q' < q {
      MulMono(1, q - q', d);
    }
  }

  /** `size / density`, the patch or field size over the density; with
      density 0 no cell exists to use it. */
  function Spacing(size: real, density: nat): real
  {
    if density == 0 then 0.0 else size / density as real
  }

  /** A grid coordinate moved by `(r - 0.5) * spacing * 0.5`: less than a
      quarter spacing either way. */
  function Jittered(grid: real, r: real, spacing: real): (p: real)
    ensures 0.0 <= r < 1.0 && spacing > 0.0 ==> -spacing / 4.0 <= p - grid < spacing / 4.0
  {
    var p := grid + (r - 0.5) * spacing * 0.5;
    assert 0.0 <= r < 1.0 && spacing > 0.0 ==> -spacing / 4.0 <= p - grid < spacing / 4.0 by {
      if 0.0 <= r < 1.0 && spacing > 0.0 {
        CenteredDraw(r, spacing);
        assert p - grid == (r - 0.5) * spacing * 0.5;
      }
    }
    p
  }

  /** The records of a scatter placer: record i builds from the draws numbered
      perItem * i, perItem * i + 1, ... */
  function Scattered<T>(count: nat, perItem: nat, item: (nat, nat) -> T): (r: seq<T>)
    ensures |r| == count
  {
    seq(count, i requires 0 <= i < count => item(i, perItem * i))
  }

  /** The nested placement loops of the record-pushing placers. */
  method PlaceGrid<T>(density: nat, perCell: nat, cell: (nat, nat, nat) -> T) returns (cells: seq<T>)
    ensures cells == GridCells(density, perCell, cell)
  {
    cells := [];
    var x := 0;
    while x < density
      invariant 0 <= x <= density
      invariant |cells| == x * density
      invariant GridPrefix(cells, density, perCell, cell)
    {
      cells := PlaceRow(density, perCell, cell, x, cells);
      x := x + 1;
    }
  }

  /** Every record pushed so far is the one of its cell. */
  ghost predicate GridPrefix<T>(cells: seq<T>, density: nat, perCell: nat, cell: (nat, nat, nat) -> T)
  {
    forall k | 0 <= k < |cells| :: density > 0 && cells[k] == cell(k / density, k % density, perCell * k)
  }

  /** The inner loop for row x: it pushes cells (x, 0) to (x, density - 1). */
  method PlaceRow<T>(density: nat, perCell: nat, cell: (nat, nat, nat) -> T, x: nat, cells: seq<T>)
    returns (cells': seq<T>)
    requires x < density && |cells| == x * density
    requires GridPrefix(cells, density, perCell, cell)
    ensures |cells'| == (x + 1) * density
    ensures GridPrefix(cells', density, perCell, cell)
  {
    cells' := cells;
    var z := 0;
    while z < density
      invariant 0 <= z <= density
      invariant |cells'| == x * density + z
      invariant GridPrefix(cells', density, perCell, cell)
    {
      CellIndex(x, z, density);
      cells' := cells' + [cell(x, z, perCell * |cells'|)];
      z := z + 1;
    }
  }
}
