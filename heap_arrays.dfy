/**
 * Arrays with dynamic (heap) storage: a pointer that starts null, is set by an
 * allocation that may fail, receives a bulk copy of a stack array, is handed
 * to a stack handler, is released once and is set back to null.
 */
module HeapArrays {
  import opened Grid
  import opened StackArrays

  datatype Option<T> = None | Some(value: T)

  /** What happens to an owned dynamic buffer, in order. */
  datatype Event = Allocated(n: nat) | AllocationFailed | Moved(n: nat) | Released

  /**
   * Where an owned dynamic buffer is in its life: only a Live buffer may be
   * indexed. Failed is terminal: the routine exits once allocation fails.
   */
  datatype Phase = Unallocated | Live(size: nat) | Failed | Freed

  /**
   * One transition of the buffer's life. None marks a contract violation: a
   * copy into a buffer that is not live or is too small, a second allocation,
   * any event after a failed allocation, a release of a buffer that is not
   * live (double release included).
   */
  function Step(p: Phase, e: Event): Option<Phase>
  {
    match (p, e)
    case (Unallocated, Allocated(n)) => Some(Live(n))
    case (Unallocated, AllocationFailed) => Some(Failed)
    case (Live(size), Moved(n)) => if n <= size then Some(p) else None
    case (Live(_), Released) => Some(Freed)
    case _ => None
  }

  /** The phase reached by a history of events from Unallocated, or None once a step violates the contract. */
  function Replay(h: seq<Event>): Option<Phase>
  {
    if h == [] then Some(Unallocated)
    else match Replay(h[..|h| - 1])
      case None => None
      case Some(p) => Step(p, h[|h| - 1])
  }

  /** How many times a history releases the buffer. */
  function ReleaseCount(h: seq<Event>): nat
  {
    if h == [] then 0 else ReleaseCount(h[..|h| - 1]) + (if h[|h| - 1] == Released then 1 else 0)
  }

  /** A history without contract violations releases at most once, and exactly once when it ends Freed. */
  lemma {:induction false} ReleasedAtMostOnce(h: seq<Event>)
    requires Replay(h).Some?
    ensures ReleaseCount(h) <= 1
    ensures Replay(h) == Some(Freed) <==> ReleaseCount(h) == 1
  {
    if h != [] {
      var front := h[..|h| - 1];
      ReleasedAtMostOnce(front);
    }
  }

  /**
   * In a history without contract violations a release is the last event and
   * leaves the buffer Freed: no copy and no second release follow it. A read
   * through the pointer after the release is ruled out because it is null.
   */
  lemma {:induction false} NothingAfterRelease(h: seq<Event>, i: nat)
    requires Replay(h).Some? && i < |h| && h[i] == Released
    ensures i == |h| - 1 && Replay(h) == Some(Freed)
  {
    if i < |h| - 1 {
      NothingAfterRelease(h[..|h| - 1], i);
      assert false;
    }
  }

  /** An owned dynamic buffer: the pointer, its phase, and the events it has gone through. */
  class OwnedBuffer {
    var ptr: array?<int>
    ghost var phase: Phase
    ghost var history: seq<Event>

    ghost predicate Valid()
      reads this
    {
      && Replay(history) == Some(phase)
      && (phase.Live? <==> ptr != null)
      && (ptr != null ==> ptr.Length == phase.size)
    }

    /** The pointer declared and initialised to NULL. */
    constructor ()
      ensures Valid() && ptr == null && phase == Unallocated && history == []
    {
      ptr := null;
      phase := Unallocated;
      history := [];
    }

    /**
     * Requests n ints from the allocator; `available` is the allocator's
     * answer. On failure the pointer stays null and the buffer is Failed,
     * after which no event is legal.
     */
    method Allocate(n: nat, available: bool) returns (ok: bool)
      requires Valid() && phase == Unallocated
      modifies this
      ensures Valid() && ok == available
      ensures ok ==> ptr != null && fresh(ptr) && ptr.Length == n && phase == Live(n)
      ensures ok ==> history == old(history) + [Allocated(n)]
      ensures !ok ==> ptr == null && phase == Failed && history == old(history) + [AllocationFailed]
    {
      ok := available;
      if ok {
        ptr := new int[n];
        phase := Live(n);
        history := history + [Allocated(n)];
      } else {
        phase := Failed;
        history := history + [AllocationFailed];
      }
    }

    /** Bulk copy of the first n elements of a distinct array into the live buffer. */
    method Move(src: array<int>, n: nat)
      requires Valid() && phase.Live? && n <= phase.size && n <= src.Length && src != ptr
      modifies ptr, this`history
      ensures Valid() && ptr == old(ptr) && phase == old(phase)
      ensures ptr[..n] == src[..n] && ptr[n..] == old(ptr[n..])
      ensures history == old(history) + [Moved(n)]
    {
      forall i | 0 <= i < n {
        ptr[i] := src[i];
      }
      history := history + [Moved(n)];
    }

    /** Releases the buffer and sets the pointer back to null. */
    method Release()
      requires Valid() && phase.Live?
      modifies this
      ensures Valid() && ptr == null && phase == Freed
      ensures history == old(history) + [Released]
    {
      ptr := null;
      phase := Freed;
      history := history + [Released];
    }
  }

  datatype HeapError = AllocationFailure

  /** The outcome of a routine: what its handler emitted, or the allocation failure that stopped it. */
  datatype Result<T> = Success(value: T) | Failure(error: HeapError)

  /**
   * Allocate eleven ints, stop on failure, copy the eleven stack values in,
   * hand the buffer to the one-dimensional pointer handler, release it.
   */
  method Heap1d(allocSucceeds: bool) returns (r: Result<seq<int>>, ghost history: seq<Event>)
    ensures r.Success? <==> allocSucceeds
    ensures r.Success? ==> r.value == [0, -99, 9, 1, 8, 2, 7, 3, 6, 4, 5]
    ensures history == if allocSucceeds then [Allocated(11), Moved(11), Released] else [AllocationFailed]
  {
    var src := FromSeq(Values1d);
    var buffer := new OwnedBuffer();
    var ok := buffer.Allocate(11, allocSucceeds);
    if !ok {
      return Failure(AllocationFailure), buffer.history;
    }
    buffer.Move(src, 11);
    var out := CStyleStack1dHandler(buffer.ptr, 11);
    buffer.Release();
    r, history := Success(out), buffer.history;
  }

  /** The malloc / free variant of the one-dimensional heap routine. */
  method CStyleHeap1d(mallocSucceeds: bool) returns (r: Result<seq<int>>, ghost history: seq<Event>)
    ensures r.Success? <==> mallocSucceeds
    ensures r.Success? ==> r.value == [0, -99, 9, 1, 8, 2, 7, 3, 6, 4, 5]
    ensures history == if mallocSucceeds then [Allocated(11), Moved(11), Released] else [AllocationFailed]
  {
    r, history := Heap1d(mallocSucceeds);
  }

  /** The new / delete variant of the one-dimensional heap routine. */
  method CppStyleHeap1d(newSucceeds: bool) returns (r: Result<seq<int>>, ghost history: seq<Event>)
    ensures r.Success? <==> newSucceeds
    ensures r.Success? ==> r.value == [0, -99, 9, 1, 8, 2, 7, 3, 6, 4, 5]
    ensures history == if newSucceeds then [Allocated(11), Moved(11), Released] else [AllocationFailed]
  {
    r, history := Heap1d(newSucceeds);
  }

  /**
   * Allocate 2 * 5 ints, stop on failure, copy the storage of the 2-by-5 stack
   * array in, hand the buffer to the pointer handler with 5 columns, release it.
   */
  method CppStyleHeap2d(newSucceeds: bool) returns (r: Result<seq<int>>, ghost history: seq<Event>)
    ensures r.Success? <==> newSucceeds
    ensures r.Success? ==> r.value == [0, 9, 1, 8, 2, 7, 3, 6, 4, 5]
    ensures r.Success? ==> forall row, col :: 0 <= row < 2 && 0 <= col < 5 ==> r.value[Offset(row, col, 5)] == Values2d[row][col]
    ensures history == if newSucceeds then [Allocated(10), Moved(10), Released] else [AllocationFailed]
  {
    assert Flatten(Values2d) == [0, 9, 1, 8, 2, 7, 3, 6, 4, 5];
    var src := FromSeq(Flatten(Values2d));
    var buffer := new OwnedBuffer();
    var ok := buffer.Allocate(2 * 5, newSucceeds);
    if !ok {
      return Failure(AllocationFailure), buffer.history;
    }
    buffer.Move(src, 10);
    var out := CStyleStack2dHandlerPointer(buffer.ptr, 10, 5);
    buffer.Release();
    FlattenLayout(Values2d, 5);
    r, history := Success(out), buffer.history;
  }

  /** The histories of the heap routines are free of contract violations and release exactly when allocation succeeded. */
  lemma HeapRoutinesReleaseOnce(n: nat, allocSucceeds: bool)
    ensures var h := if allocSucceeds then [Allocated(n), Moved(n), Released] else [AllocationFailed];
      Replay(h) == Some(if allocSucceeds then Freed else Failed)
      && ReleaseCount(h) == if allocSucceeds then 1 else 0
  {
    var h := if allocSucceeds then [Allocated(n), Moved(n), Released] else [AllocationFailed];
    if allocSucceeds {
      assert h[..2][..1] == h[..1] == [Allocated(n)];
      assert Replay(h[..1]) == Some(Live(n));
      assert Replay(h[..2]) == Some(Live(n));
      assert ReleaseCount(h[..1]) == 0;
      assert ReleaseCount(h[..2]) == 0;
    } else {
      assert h[..0] == [];
    }
  }
}
