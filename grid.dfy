/**
 * Row-major layout of a two-dimensional grid inside contiguous one-dimensional
 * storage. Element (r, c) of a grid whose rows hold `cols` elements lives at
 * offset r * cols + c; the rows of a nested array lie one after the other.
 */
module Grid {

  /** Physical offset of the logical element (r, c) when every row holds `cols` elements. */
  function Offset(r: int, c: int, cols: int): int
  {
    r * cols + c
  }

  /** Row of the element stored at offset k. */
  function Row(k: int, cols: int): int
    requires cols > 0
  {
    k / cols
  }

  /** Column of the element stored at offset k. */
  function Col(k: int, cols: int): int
    requires cols > 0
  {
    k % cols
  }

  // Multiplication by a non-negative factor is monotone.
  lemma MulMono(a: int, b: int, k: int)
    requires a <= b && 0 <= k
    ensures a * k <= b * k
  {
    assert b * k - a * k == (b - a) * k;
  }

  /** Every valid coordinate of a rows-by-cols grid maps into [0, rows * cols). */
  lemma OffsetInBounds(r: int, c: int, rows: int, cols: int)
    requires 0 <= r < rows && 0 <= c < cols
    ensures 0 <= Offset(r, c, cols) < rows * cols
  {
    MulMono(0, r, cols);
    MulMono(r + 1, rows, cols);
  }

  /** A count of elements splits into size / cols whole rows of `cols` and size % cols elements left over. */
  lemma WholeRows(size: nat, cols: nat)
    requires cols > 0
    ensures size == Offset(size / cols, size % cols, cols)
    ensures 0 <= (size / cols) * cols <= size
    ensures size % cols == 0 ==> (size / cols) * cols == size
  {
    MulMono(0, size / cols, cols);
  }

  /** Row t of a rows-by-cols grid occupies offsets [t * cols, (t + 1) * cols) inside [0, rows * cols). */
  lemma RowSpan(t: int, rows: int, cols: int)
    requires 0 <= t < rows && 0 <= cols
    ensures 0 <= Offset(t, 0, cols) <= Offset(t, cols, cols) == Offset(t + 1, 0, cols) <= rows * cols
  {
    MulMono(0, t, cols);
    MulMono(t + 1, rows, cols);
  }

  /** Two coordinates with in-range columns share an offset only when they are the same coordinate. */
  lemma OffsetInjective(r1: int, c1: int, r2: int, c2: int, cols: int)
    requires 0 <= c1 < cols && 0 <= c2 < cols
    ensures Offset(r1, c1, cols) == Offset(r2, c2, cols) <==> r1 == r2 && c1 == c2
  {
    if r1 < r2 {
      MulMono(r1 + 1, r2, cols);
    } else if r2 < r1 {
      MulMono(r2 + 1, r1, cols);
    }
  }

  /** Row and Col recover the coordinate an offset was computed from. */
  lemma CoordOfOffset(r: int, c: int, cols: int)
    requires 0 <= c < cols
    ensures Row(Offset(r, c, cols), cols) == r && Col(Offset(r, c, cols), cols) == c
  {
    var k := Offset(r, c, cols);
    assert k == Offset(k / cols, k % cols, cols);
    OffsetInjective(r, c, k / cols, k % cols, cols);
  }

  /** Every offset below rows * cols comes from a valid coordinate, and Offset rebuilds it. */
  lemma OffsetOfCoord(k: int, rows: int, cols: int)
    requires cols > 0 && 0 <= k < rows * cols
    ensures 0 <= Row(k, cols) < rows && 0 <= Col(k, cols) < cols
    ensures Offset(Row(k, cols), Col(k, cols), cols) == k
  {
    var q, m := k / cols, k % cols;
    assert k == q * cols + m;
    if q < 0 {
      MulMono(q, -1, cols);
    } else if rows <= q {
      MulMono(rows, q, cols);
    }
  }

  /** The contiguous storage of a nested array: its rows one after the other. */
  function Flatten(g: seq<seq<int>>): seq<int>
  {
    if g == [] then [] else Flatten(g[..|g| - 1]) + g[|g| - 1]
  }

  /** Every row of g holds exactly `cols` elements, as in a fixed-shape array type. */
  predicate Rectangular(g: seq<seq<int>>, cols: nat)
  {
    forall r :: 0 <= r < |g| ==> |g[r]| == cols
  }

  /** Element [r][c] of a rectangular nested array sits at offset r * cols + c of its storage. */
  lemma {:induction false} FlattenLayout(g: seq<seq<int>>, cols: nat)
    requires Rectangular(g, cols)
    ensures |Flatten(g)| == |g| * cols
    ensures forall r, c :: 0 <= r < |g| && 0 <= c < cols ==>
      Offset(r, c, cols) < |Flatten(g)| && Flatten(g)[Offset(r, c, cols)] == g[r][c]
  {
    if g != [] {
      var front := g[..|g| - 1];
      FlattenLayout(front, cols);
      RowSpan(|front|, |g|, cols);
      forall r, c | 0 <= r < |g| && 0 <= c < cols
        ensures Offset(r, c, cols) < |Flatten(g)| && Flatten(g)[Offset(r, c, cols)] == g[r][c]
      {
        if r < |front| {
          OffsetInBounds(r, c, |front|, cols);
          assert g[r] == front[r];
        } else {
          assert Offset(r, c, cols) == Offset(|front|, 0, cols) + c;
        }
      }
    }
  }

  /** The first `cols` elements of every row of g. */
  function Columns(g: seq<seq<int>>, cols: nat): (h: seq<seq<int>>)
    requires forall r :: 0 <= r < |g| ==> cols <= |g[r]|
    ensures |h| == |g| && Rectangular(h, cols)
  {
    seq(|g|, r requires 0 <= r < |g| => g[r][..cols])
  }

  /** Keeping all `cols` elements of every row of a rectangular g keeps g. */
  lemma ColumnsOfRectangular(g: seq<seq<int>>, cols: nat)
    requires Rectangular(g, cols)
    ensures Columns(g, cols) == g
  {
    forall r | 0 <= r < |g|
      ensures Columns(g, cols)[r] == g[r]
    {
      assert g[r][..cols] == g[r];
    }
  }

  /** Row r of flat storage whose rows hold `cols` elements. */
  function RowAt(s: seq<int>, r: nat, cols: nat): (row: seq<int>)
    requires r * cols + cols <= |s|
    ensures |row| == cols
    ensures forall c :: 0 <= c < cols ==> row[c] == s[Offset(r, c, cols)]
  {
    s[r * cols .. r * cols + cols]
  }

  /** The `rows` rows of `cols` elements stored at the front of s: the fixed-shape view of flat storage. */
  function Rows(s: seq<int>, rows: nat, cols: nat): (g: seq<seq<int>>)
    requires rows * cols <= |s|
    ensures |g| == rows && Rectangular(g, cols)
  {
    if rows == 0 then [] else MulMono(rows - 1, rows, cols); Rows(s, rows - 1, cols) + [RowAt(s, rows - 1, cols)]
  }

  /** Element [r][c] of the row view is the element at offset r * cols + c of the storage. */
  lemma {:induction false} RowsLayout(s: seq<int>, rows: nat, cols: nat)
    requires rows * cols <= |s|
    ensures forall r, c :: 0 <= r < rows && 0 <= c < cols ==> Rows(s, rows, cols)[r][c] == s[Offset(r, c, cols)]
  {
    if rows > 0 {
      MulMono(rows - 1, rows, cols);
      RowsLayout(s, rows - 1, cols);
    }
  }

  /** Viewing storage as rows and laying the rows out again gives back the storage it read. */
  lemma FlattenRows(s: seq<int>, rows: nat, cols: nat)
    requires rows * cols <= |s|
    ensures Flatten(Rows(s, rows, cols)) == s[..rows * cols]
  {
    var g := Rows(s, rows, cols);
    RowsLayout(s, rows, cols);
    FlattenLayout(g, cols);
    if cols > 0 {
      forall k | 0 <= k < rows * cols
        ensures Flatten(g)[k] == s[k]
      {
        OffsetOfCoord(k, rows, cols);
      }
    }
  }

  /** Laying out a rectangular nested array and viewing the storage as rows gives back the nested array. */
  lemma RowsFlatten(g: seq<seq<int>>, cols: nat)
    requires Rectangular(g, cols)
    ensures |g| * cols == |Flatten(g)|
    ensures Rows(Flatten(g), |g|, cols) == g
  {
    FlattenLayout(g, cols);
    var h := Rows(Flatten(g), |g|, cols);
    RowsLayout(Flatten(g), |g|, cols);
    forall r | 0 <= r < |g|
      ensures h[r] == g[r]
    {
      assert forall c :: 0 <= c < cols ==> h[r][c] == g[r][c];
    }
  }
}
