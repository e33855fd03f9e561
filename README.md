# Test-Arrays: arrays on the stack and on the heap, in Dafny

`example.cpp` shows, one function per case, how a fixed-size sequence of
`int`s can be declared, stored and passed to a handler. The storage is either
a local (stack) array or a heap buffer from `malloc`/`new`. The container is
either a C array or a `std::array`. The passing convention is one of: a
pointer and an element count, a pointer with an element count and a column
count, the fixed-shape type `int[][5]`, a `std::array` by value, or a pair
of iterators. Every handler prints the array. This model returns the printed
integers as a `seq<int>` and proves what they are.

Three modules, one per concern:

- `Grid` (`grid.dfy`) covers the row-major layout. `Offset(r, c, cols) = r * cols + c`
  and its inverse `Row`/`Col` are defined here. `Flatten` lays out a nested
  array's storage and `Rows` gives the `int[][C]` view of flat storage. The
  lemmas prove that the offset is in bounds, injective and invertible, and
  that `Flatten` and `Rows` undo each other.
- `StackArrays` (`stack_arrays.dfy`) holds every stack handler as a method
  with the source's loops and the invariants they need. Each demonstration
  function that calls a handler is a method with the concrete initializers,
  and its contract states exactly the integers printed. The one exception is
  `CppStdArrayStack1d`: it calls the corrected iterator handler, because the
  call as written also dereferences `end()` (see Findings).
- `HeapArrays` (`heap_arrays.dfy`) models the heap pointer's lifecycle. An
  `OwnedBuffer` class holds the pointer and, as ghost state, the phase
  (`Unallocated`/`Live`/`Failed`/`Freed`) and the history of events. The pure state
  machine `Step`/`Replay` defines which event sequences are legal. The three
  heap routines allocate, stop on failure, copy, call a stack handler,
  release once and null the pointer.

The third parameter of `c_style_stack_2d_handler_pointer` and
`c_style_stack_2d_handler_type` is named `rows` in the source. It is really
the number of columns: the caller passes 5 for a 2-by-5 array. The model
calls it `cols`, and `size / cols` is the number of rows.

The model follows what the code does rather than a general grid
abstraction:

- The handlers take the column count and derive the row count from
  `size / cols`. They are not given both dimensions.
- Nothing checks that an initializer has `rows * cols` elements. That check
  would be a shape-mismatch error, and no such error exists in the code.
- There is no checked accessor. Out-of-range reads and use after release are
  ruled out by preconditions and by the pointer being null, not by an error
  result.

## Model

| member | source | states |
|---|---|---|
| `Grid.OffsetInBounds` | example.cpp:490-496 | For `0 <= t < rows` and `0 <= ti < cols`, the offset `t*cols + ti` read by the nested loops lies in `[0, rows*cols)` |
| `Grid.OffsetInjective` | example.cpp:494-496 | Two coordinates with in-range columns have the same offset exactly when they are the same coordinate, so no element is read for two positions |
| `Grid.CoordOfOffset` | example.cpp:459 | `Index = r*C + c` can be inverted: `Row` and `Col` of the offset give back `r` and `c` |
| `Grid.OffsetOfCoord` | example.cpp:490-496 | Every offset below `rows*cols` comes from the coordinate `(k / cols, k % cols)`, whose row is below `rows` and whose column is below `cols` |
| `Grid.WholeRows` | example.cpp:490 | `size` splits into `size / cols` whole rows plus `size % cols` leftover elements, so the loops cover exactly `size` elements when `size` is a multiple of `cols` |
| `Grid.RowSpan` | example.cpp:490-496 | Row `t` occupies offsets `[t*cols, (t+1)*cols)`, and that range lies inside `[0, rows*cols)` |
| `Grid.FlattenLayout` | example.cpp:412 | A rectangular nested initializer occupies `rows*cols` contiguous elements, and element `[r][c]` sits at offset `r*cols + c` |
| `Grid.RowsLayout` | example.cpp:522-556 | Element `[t][ti]` of the `int[][C]` view of flat storage is the storage element at offset `t*C + ti` |
| `Grid.FlattenRows` | example.cpp:438-440 | Viewing flat storage as rows and laying the rows out again gives back the first `rows*cols` elements of the storage |
| `Grid.RowsFlatten` | example.cpp:769-784 | Laying out a nested `std::array` and viewing its storage as rows gives back the nested array |
| `StackArrays.CStyleStack1dHandler` | example.cpp:336-391 | Index 1 of the caller's array becomes `-99` and every other element keeps its value; the output is the first `size` elements of the edited array |
| `StackArrays.CStyleStack1d` | example.cpp:278-325 | On `{0,10,9,1,8,2,7,3,6,4,5}` the handler prints `{0,-99,9,1,8,2,7,3,6,4,5}` |
| `StackArrays.CStyleStack2dHandlerPointer` | example.cpp:462-510 | The nested loops print the first `(size/cols)*cols` elements in storage order, which is the row-major traversal of the `cols`-wide row view; when `size` is a multiple of `cols` they print exactly `a[0..size)` |
| `StackArrays.CStyleStack2dHandlerType` | example.cpp:522-570 | The `int[][5]` handler prints the first `cols` elements of each of the `size/cols` rows of the 5-wide view, row by row |
| `StackArrays.TypedViewIsFlatPrefix` | example.cpp:438-440 | With 5 columns, the `int[][5]` handler's output equals the pointer handler's output on the same storage |
| `StackArrays.CStyleStack2d` | example.cpp:401-451 | On the 2-by-5 array `{{0,9,1,8,2},{7,3,6,4,5}}` both C handlers print `{0,9,1,8,2,7,3,6,4,5}` |
| `StackArrays.CppStdArrayStack1dHandlerTemplate` | example.cpp:631-687 | The by-value handler prints the caller's array with index 1 replaced by `-99`; it has no write access to the caller's array |
| `StackArrays.CppStdArrayStack1dHandlerIteratorAsWritten` | example.cpp:702-744 | The loop `first <= last`, run on positions inside the array, prints `last - first + 1` elements: `a[first..last]` inclusive. The positions it dereferences, recorded as it runs, are exactly `VisitedAsWritten(first, last)` |
| `StackArrays.VisitedAsWrittenSpan` | example.cpp:728-731 | The as-written loop dereferences every position from `first` through `last` inclusive: `last + 1 - first` positions |
| `StackArrays.IteratorOverrunsEnd` | example.cpp:609 | For `first = begin()` and `last = end()` of an n-element array, the as-written loop dereferences n + 1 positions, and the last of them is position n, `end()` itself, which is not an element |
| `StackArrays.CppStdArrayStack1dHandlerIterator` | example.cpp:728-731 | The intended traversal of `[first, last)` prints exactly `last - first` elements, `a[first], ..., a[last-1]`, in order |
| `StackArrays.CppStdArrayStack1d` | example.cpp:580-620 | The by-value handler prints `{0,-99,9,...}`, and afterwards the corrected iterator handler still sees the caller's unedited `{0,10,9,1,8,2,7,3,6,4,5}` |
| `StackArrays.CppStdArrayStack2dHandlerTemplate` | example.cpp:810-868 | The nested by-value handler prints the rows one after another, `rows*cols` elements in all, with `g[r][c]` at position `r*cols + c` |
| `StackArrays.CppStdArrayStack2d` | example.cpp:758-798 | The pointer handler on the array's contiguous storage and the nested handler print the same `{0,9,1,8,2,7,3,6,4,5}` |
| `HeapArrays.ReleasedAtMostOnce` | example.cpp:927-931 | A history with no contract violation releases the buffer at most once; it ends `Freed` exactly when it released once |
| `HeapArrays.NothingAfterRelease` | example.cpp:929-931 | In a history with no contract violation, a release is the last event and leaves the buffer `Freed`: no copy and no second release follow it |
| `HeapArrays.OwnedBuffer.constructor` | example.cpp:894 | The pointer starts null, with no history |
| `HeapArrays.OwnedBuffer.Allocate` | example.cpp:906-912 | Success gives a fresh live buffer of `n` ints. Failure leaves the pointer null and the buffer `Failed`, after which no event is legal; only the failure is recorded |
| `HeapArrays.OwnedBuffer.Move` | example.cpp:913-914 | Only a live buffer can be copied into. Afterwards its first `n` elements equal the source's and the rest are unchanged |
| `HeapArrays.OwnedBuffer.Release` | example.cpp:929-931 | Only a live buffer can be released. Afterwards the pointer is null and the buffer is `Freed` |
| `HeapArrays.CStyleHeap1d` | example.cpp:881-938 | If `malloc` fails, the routine fails with nothing copied or printed. Otherwise it allocates 11, copies 11, prints `{0,-99,9,1,8,2,7,3,6,4,5}` and releases once |
| `HeapArrays.CppStyleHeap1d` | example.cpp:993-1050 | The same outcome with `new` and `delete` |
| `HeapArrays.CppStyleHeap2d` | example.cpp:1061-1118 | If `new` fails, the routine fails. Otherwise the copied buffer holds `src[r][c]` at `r*5 + c`, the pointer handler prints `{0,9,1,8,2,7,3,6,4,5}` in row-major order, and the buffer is released once |
| `HeapArrays.HeapRoutinesReleaseOnce` | example.cpp:906-931 | The heap routines' histories have no contract violation. They end `Freed` after one release when allocation succeeds, and end `Failed` with no release when it fails |

## Left out

- Console output: all `cout`/`cerr` text, separators and line breaks. A
  handler's output is the sequence of integers it prints.
- The sequencing of the demonstrations in `main`.
- The `sizeof` element counts at example.cpp:309 and 435 compute the count
  the handlers receive (example.cpp:314, 438, 440). The model passes
  `a.Length` in their place. The counts at example.cpp:365 and
  `std::array::size()` at example.cpp:661 and 840 are only printed.
- Sizes and counters are `nat`. The callers pass only 10 and 11. A negative
  `size` would make the loops run zero times, and that case is not modelled.
- C `int` overflow of `t*rows + ti` is not modelled. No offset here exceeds 10.
- Allocation outcome: whether `malloc`/`new` succeeds is a boolean parameter.
- Allocation failure: `exit(-1)` after a failed allocation becomes a
  `Failure(AllocationFailure)` result.
- `new` throws instead of returning null, so the checks at example.cpp:1020
  and 1088 can never fire in real C++. They get the same failure shape as
  `malloc`.
- `delete` on a `new[]` result (example.cpp:1042, 1110) is undefined
  behaviour in C++, and Dafny has no counterpart for it.
- `memmove` is modelled as an element-wise copy between two distinct arrays.
  In this file the source and destination never overlap, so overlap
  semantics are not modelled.
- `c_style_heap_2d` and `f` have empty bodies.
- Templates are instantiated at `int`. The `register` storage class has no
  meaning here.
- The contiguous storage of the nested `std::array` and its nested value are
  built separately from the same initializer. Writes through one view are not
  seen through the other. No two-dimensional handler writes, so this changes
  no result.
- StackArrays.CStyleStack2dHandlerPointer: requires `cols > 0`. With a
  column argument of 0 the source's `size/rows` (example.cpp:490) divides by
  zero, which C leaves undefined.
- StackArrays.CStyleStack2dHandlerType: requires `0 < cols`, for the same
  division by zero at example.cpp:550, and `cols <= 5`. With a larger
  column argument the source reads past the end of each 5-element row, and C
  leaves that undefined.
- StackArrays.CppStdArrayStack1dHandlerIteratorAsWritten: requires `last`
  to designate an element. The only call site passes `end()`, which does not;
  see Findings.
- StackArrays.CppStdArrayStack1d: calls the corrected iterator handler
  `StackArrays.CppStdArrayStack1dHandlerIterator`, so `byIterator` is the 11
  elements. The source's call at example.cpp:609 runs the loop as written,
  which also dereferences `end()` (see Findings); its output is undefined.
- HeapArrays.CStyleHeap1d: runs the shared body `HeapArrays.Heap1d`, as
  does HeapArrays.CppStyleHeap1d. The two source functions are the same step
  for step; they differ only in `malloc`/`free` versus `new`/`delete`, which
  the model does not distinguish.

## Findings

| source | as written | input that shows it | evidently intended | confidence | as-written member | corrected member |
|---|---|---|---|---|---|---|
| example.cpp:728 | The iterator loop runs while `first <= last`, so it also dereferences `last` | `first = begin()`, `last = end()` of the 11-element array (example.cpp:609): 12 dereferences, the last at `end()`, one past the final element | Loop while `first < last`, printing exactly the 11 elements | high; not executed | `StackArrays.IteratorOverrunsEnd` | `StackArrays.CppStdArrayStack1dHandlerIterator` |
