/**
 * Arrays with automatic (stack) storage and the handlers they are passed to:
 * a pointer with an explicit element count, a pointer with an element count
 * and a column count, a fixed-shape `int[][5]` parameter, a `std::array` passed by
 * value and a pair of `std::array` iterators. Each handler returns the
 * sequence of integers it writes to the console.
 */
module StackArrays {
  import opened Grid

  /** The eleven values every one-dimensional demonstration starts from. */
  const Values1d: seq<int> := [0, 10, 9, 1, 8, 2, 7, 3, 6, 4, 5]

  /** The 2-by-5 initializer of every two-dimensional demonstration, one inner sequence per row. */
  const Values2d: seq<seq<int>> := [[0, 9, 1, 8, 2], [7, 3, 6, 4, 5]]

  /** Row width fixed by the parameter type `int[][5]`. */
  const RowWidth: nat := 5

  /** The value every one-dimensional handler writes at index 1. */
  const Marker: int := -99

  /** A fresh array holding s, as an array initializer creates it. */
  method FromSeq(s: seq<int>) returns (a: array<int>)
    ensures fresh(a) && a[..] == s
  {
    a := new int[|s|](i requires 0 <= i < |s| => s[i]);
  }

  /**
   * Handler reached through a pointer and an element count: writes Marker at
   * index 1 of the caller's storage, then emits the first `size` elements.
   */
  method CStyleStack1dHandler(a: array<int>, size: nat) returns (out: seq<int>)
    requires 2 <= a.Length && size <= a.Length
    modifies a
    ensures a[..] == old(a[..])[1 := Marker]
    ensures out == a[..size]
  {
    a[1] := Marker;
    out := [];
    var t := 0;
    while t < size
      invariant 0 <= t <= size
      invariant out == a[..t]
    {
      out := out + [a[t]];
      t := t + 1;
    }
  }

  /** The caller of CStyleStack1dHandler: an eleven-element stack array. */
  method CStyleStack1d() returns (out: seq<int>)
    ensures out == [0, -99, 9, 1, 8, 2, 7, 3, 6, 4, 5]
  {
    var a := FromSeq(Values1d);
    out := CStyleStack1dHandler(a, a.Length);
  }

  /**
   * Handler reached through the address of element [0][0] of a two-dimensional
   * array: the third parameter is the number of columns, so size / cols whole
   * rows are emitted, row by row, reading offset t * cols + ti.
   */
  method CStyleStack2dHandlerPointer(a: array<int>, size: nat, cols: nat) returns (out: seq<int>)
    requires cols > 0 && (size / cols) * cols <= a.Length
    ensures out == a[..(size / cols) * cols]
    ensures out == Flatten(Rows(a[..], size / cols, cols))
    ensures size % cols == 0 ==> size <= a.Length && out == a[..size]
  {
    var rows := size / cols;
    out := [];
    var t := 0;
    while t < rows
      invariant 0 <= t <= rows
      invariant Offset(t, 0, cols) <= rows * cols
      invariant out == a[..Offset(t, 0, cols)]
    {
      RowSpan(t, rows, cols);
      var ti := 0;
      while ti < cols
        invariant 0 <= ti <= cols
        invariant Offset(t, ti, cols) <= Offset(t, cols, cols)
        invariant out == a[..Offset(t, ti, cols)]
      {
        out := out + [a[Offset(t, ti, cols)]];
        ti := ti + 1;
      }
      t := t + 1;
    }
    assert out == a[..rows * cols];
    FlattenRows(a[..], rows, cols);
    assert a[..][..rows * cols] == a[..rows * cols];
    WholeRows(size, cols);
  }

  /**
   * Handler whose parameter has the type `int[][5]`: it sees the storage as
   * rows of RowWidth elements, and the `cols` argument only bounds the inner
   * loop, so it emits the first `cols` elements of each of size / cols rows.
   */
  method CStyleStack2dHandlerType(a: array<int>, size: nat, cols: nat) returns (out: seq<int>)
    requires 0 < cols <= RowWidth && (size / cols) * RowWidth <= a.Length
    ensures out == Flatten(Columns(Rows(a[..], size / cols, RowWidth), cols))
  {
    var rows := size / cols;
    ghost var view := Rows(a[..], rows, RowWidth);
    ghost var emitted := Columns(view, cols);
    RowsLayout(a[..], rows, RowWidth);
    out := [];
    var t := 0;
    while t < rows
      invariant 0 <= t <= rows
      invariant out == Flatten(emitted[..t])
    {
      var ti := 0;
      while ti < cols
        invariant 0 <= ti <= cols
        invariant out == Flatten(emitted[..t]) + emitted[t][..ti]
      {
        OffsetInBounds(t, ti, rows, RowWidth);
        out := out + [a[Offset(t, ti, RowWidth)]];
        ti := ti + 1;
      }
      assert emitted[..t + 1][..t] == emitted[..t];
      t := t + 1;
    }
    assert emitted[..t] == emitted;
  }

  /**
   * When the column argument equals the row width of `int[][5]`, the typed
   * handler emits exactly what the pointer handler emits on the same storage.
   */
  lemma TypedViewIsFlatPrefix(s: seq<int>, rows: nat)
    requires rows * RowWidth <= |s|
    ensures Flatten(Columns(Rows(s, rows, RowWidth), RowWidth)) == s[..rows * RowWidth]
  {
    var view := Rows(s, rows, RowWidth);
    RowsLayout(s, rows, RowWidth);
    ColumnsOfRectangular(view, RowWidth);
    FlattenRows(s, rows, RowWidth);
  }

  /** The caller of both two-dimensional C handlers: a 2-by-5 stack array and the column count 5. */
  method CStyleStack2d() returns (viaPointer: seq<int>, viaType: seq<int>)
    ensures viaPointer == viaType == [0, 9, 1, 8, 2, 7, 3, 6, 4, 5]
  {
    assert Flatten(Values2d) == [0, 9, 1, 8, 2, 7, 3, 6, 4, 5];
    var a := FromSeq(Flatten(Values2d));
    var size := a.Length;
    var cols := 5;
    viaPointer := CStyleStack2dHandlerPointer(a, size, cols);
    viaType := CStyleStack2dHandlerType(a, size, cols);
    TypedViewIsFlatPrefix(a[..], size / cols);
  }

  /**
   * Handler receiving a `std::array` by value: it edits its own copy, so the
   * caller's array is outside its frame, and emits the edited copy.
   */
  method CppStdArrayStack1dHandlerTemplate(a: array<int>) returns (out: seq<int>)
    requires 2 <= a.Length
    ensures out == a[..][1 := Marker]
  {
    var copy := new int[a.Length](i requires 0 <= i < a.Length reads a => a[i]);
    copy[1] := Marker;
    out := [];
    var t := 0;
    while t < copy.Length
      invariant 0 <= t <= copy.Length
      invariant out == copy[..t]
    {
      out := out + [copy[t]];
      t := t + 1;
    }
    assert copy[..] == a[..][1 := Marker];
  }

  /**
   * The loop of the iterator handler as written: it runs while first <= last,
   * so it dereferences `last` as well. It stays in bounds only when `last`
   * designates an element, which the caller's end() iterator never does.
   * `visited` records the positions the loop dereferences, in order.
   */
  method CppStdArrayStack1dHandlerIteratorAsWritten(a: array<int>, first: nat, last: nat) returns (out: seq<int>, ghost visited: seq<nat>)
    requires first <= last + 1 && last < a.Length
    ensures out == a[first..last + 1]
    ensures |out| == last - first + 1
    ensures visited == VisitedAsWritten(first, last)
  {
    out, visited := [], [];
    var it := first;
    while it <= last
      invariant first <= it <= last + 1
      invariant out == a[first..it]
      invariant |visited| == it - first
      invariant forall i :: 0 <= i < |visited| ==> visited[i] == first + i
    {
      out := out + [a[it]];
      visited := visited + [it];
      it := it + 1;
    }
    VisitedAsWrittenSpan(first, last);
  }

  /** Positions the as-written iterator loop dereferences: first, first + 1, ..., last. */
  function VisitedAsWritten(first: nat, last: nat): seq<nat>
    decreases last + 1 - first
  {
    if first <= last then [first] + VisitedAsWritten(first + 1, last) else []
  }

  /** The as-written loop dereferences every position from first through last inclusive. */
  lemma {:induction false} VisitedAsWrittenSpan(first: nat, last: nat)
    requires first <= last + 1
    ensures |VisitedAsWritten(first, last)| == last + 1 - first
    ensures forall i :: 0 <= i < |VisitedAsWritten(first, last)| ==> VisitedAsWritten(first, last)[i] == first + i
    decreases last + 1 - first
  {
    if first <= last {
      VisitedAsWrittenSpan(first + 1, last);
    }
  }

  /**
   * With first == begin() and last == end() of an n-element array, the loop as
   * written makes n + 1 dereferences, and the last one is at position n, which
   * is not an element of the array.
   */
  lemma IteratorOverrunsEnd(n: nat)
    ensures |VisitedAsWritten(0, n)| == n + 1
    ensures VisitedAsWritten(0, n)[n] == n
  {
    VisitedAsWrittenSpan(0, n);
  }

  /** The iterator handler with the intended loop condition first < last: emits [first, last). */
  method CppStdArrayStack1dHandlerIterator(a: array<int>, first: nat, last: nat) returns (out: seq<int>)
    requires first <= last <= a.Length
    ensures |out| == last - first
    ensures forall i :: 0 <= i < |out| ==> out[i] == a[first + i]
  {
    out := [];
    var it := first;
    while it < last
      invariant first <= it <= last
      invariant |out| == it - first
      invariant forall i :: 0 <= i < |out| ==> out[i] == a[first + i]
    {
      out := out + [a[it]];
      it := it + 1;
    }
  }

  /**
   * The caller of both one-dimensional std::array handlers: the by-value
   * handler sees the edit, the iterator handler afterwards still sees the
   * caller's original eleven values.
   */
  method CppStdArrayStack1d() returns (byValue: seq<int>, byIterator: seq<int>)
    ensures byValue == [0, -99, 9, 1, 8, 2, 7, 3, 6, 4, 5]
    ensures byIterator == Values1d
  {
    var a := FromSeq(Values1d);
    byValue := CppStdArrayStack1dHandlerTemplate(a);
    byIterator := CppStdArrayStack1dHandlerIterator(a, 0, a.Length);
    assert byIterator == a[..];
  }

  /**
   * Handler receiving `std::array<std::array<int, C>, R>` by value: emits
   * element [t][ti] for every row t and, inside it, every column ti.
   */
  method CppStdArrayStack2dHandlerTemplate(g: seq<seq<int>>, rows: nat, cols: nat) returns (out: seq<int>)
    requires |g| == rows && Rectangular(g, cols)
    ensures out == Flatten(g)
    ensures |out| == rows * cols
    ensures forall r, c :: 0 <= r < rows && 0 <= c < cols ==>
      Offset(r, c, cols) < |out| && out[Offset(r, c, cols)] == g[r][c]
  {
    out := [];
    var t := 0;
    while t < rows
      invariant 0 <= t <= rows
      invariant out == Flatten(g[..t])
    {
      var ti := 0;
      while ti < cols
        invariant 0 <= ti <= cols
        invariant out == Flatten(g[..t]) + g[t][..ti]
      {
        out := out + [g[t][ti]];
        ti := ti + 1;
      }
      assert g[..t + 1][..t] == g[..t];
      t := t + 1;
    }
    assert g[..t] == g;
    FlattenLayout(g, cols);
  }

  /**
   * The caller of both two-dimensional std::array handlers: the flat pointer
   * handler on the array's contiguous storage and the nested by-value handler
   * emit the same sequence.
   */
  method CppStdArrayStack2d() returns (viaPointer: seq<int>, viaTemplate: seq<int>)
    ensures viaPointer == viaTemplate == [0, 9, 1, 8, 2, 7, 3, 6, 4, 5]
  {
    assert Flatten(Values2d) == [0, 9, 1, 8, 2, 7, 3, 6, 4, 5];
    var storage := FromSeq(Flatten(Values2d));
    viaPointer := CStyleStack2dHandlerPointer(storage, 5 * 2, 5);
    viaTemplate := CppStdArrayStack2dHandlerTemplate(Values2d, 2, 5);
  }
}
