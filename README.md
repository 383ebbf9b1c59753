# Coordinate cursor of the AlgoritmLesson3 distance benchmark

`BenchmarkClass` in `AlgoritmLesson3/Program.cs` keeps four arrays of
`ELEMENTS` (100000) random coordinates: 32-bit integers, 64-bit integers,
floats and doubles. One integer `pointer` serves as a cursor into them. The
constructor fills the arrays in one loop and puts the cursor at a random
index. Each call to `giveMeFloatCoordinates` or `giveMeDoubleCoordinates`
first moves the cursor and then returns the pair at the new position. The
cursor moves back to 0 when it is past `ELEMENTS - 4` and moves on by two
otherwise. Both accessors move the same cursor.

The project has three modules:

- `Store` (`store.dfy`) holds the constants and the scaling of a draw into a
  64-bit coordinate.
- `Cursor` (`cursor.dfy`) holds the cursor update `Advance` and its iterate
  `Iterate`, the cursor after `n` calls, with lemmas about where the cursor
  goes.
- `Benchmark` (`benchmark.dfy`) holds the class. Its fields are the cursor and
  the four arrays. Its constructor fills the arrays in a loop. Its two
  accessors are proved against `Advance` and change nothing but `pointer`.

The float and double element types are the class's type parameters `F` and
`D`. The accessors never compute with these values.

Two facts about the code that the model makes explicit:

- `Random.Next(MIN, MAX)` never returns `MAX`, so a draw lies in the
  half-open range `[MIN, MAX)`. `Store.IsDraw` uses that range.
- The `ELEMENTS - 4` threshold wastes no pair. `Cursor.Advance` moves on by
  two exactly when the next pair fits in the array. `Cursor.EveryPairVisited`
  shows that from any start every pair `(i, i + 1)` with `i` even is read
  within `2 * CYCLE` calls, the last pair `(ELEMENTS - 2, ELEMENTS - 1)`
  included.

## Model

| member | source | states |
|---|---|---|
| `Cursor.Advance` | AlgoritmLesson3/Program.cs:114-117 | From a cursor in `[0, ELEMENTS)`, both indices the call then reads are inside the array. The cursor moves on by two exactly when `p + 3 < ELEMENTS`; otherwise it is reset to 0. |
| `Cursor.Iterate` | AlgoritmLesson3/Program.cs:112-132 | The cursor after any number of calls, of either accessor, stays in `[0, ELEMENTS)`. After at least one call, the pair it points at is inside the array. |
| `Cursor.IterateSnoc` | AlgoritmLesson3/Program.cs:114-117 | One more call applies the update to the cursor that `n` calls left. |
| `Cursor.IterateAdd` | AlgoritmLesson3/Program.cs:112-132 | `m` calls followed by `n` calls move the shared cursor like `m + n` calls. |
| `Cursor.CallsUntilReset` | AlgoritmLesson3/Program.cs:114-117 | From any valid start, the cursor moves by exactly two per call until a call resets it to 0. That reset comes within `(ELEMENTS - p + 1) / 2` calls. |
| `Cursor.FromZero` | AlgoritmLesson3/Program.cs:114-117 | Starting at 0, the cursor visits 2, 4, ..., `ELEMENTS - 2` in order and is back at 0 after exactly `CYCLE` (50000) calls. |
| `Cursor.EvenStaysEven` | AlgoritmLesson3/Program.cs:114-117 | Any number of calls keeps an even cursor even. |
| `Cursor.EvenAfterReset` | AlgoritmLesson3/Program.cs:114-117 | Once a call has reset the cursor to 0, the cursor is even after every later call. |
| `Cursor.EveryPairVisited` | AlgoritmLesson3/Program.cs:114-118 | From any valid start, every pair `(i, i + 1)` with `i` even is read within `2 * CYCLE` calls. No tail of the array is left unread. |
| `Store.Int32Wrap` | AlgoritmLesson3/Program.cs:97 | An unchecked 32-bit result lies in the `int` range, is congruent to the exact result modulo 2^32, and equals it when the exact result fits. |
| `Store.LongCoordinateAsWritten` | AlgoritmLesson3/Program.cs:97 | The 64-bit coordinate computed as written never leaves the 32-bit range, whatever the draw. |
| `Store.LongCoordinate` | AlgoritmLesson3/Program.cs:97 | The intended 64-bit coordinate lies in `[MIN * 10^6, (MAX - 1) * 10^6]`, is a multiple of 10^6, and divides back to its draw. |
| `Store.AsWrittenAgreesIff` | AlgoritmLesson3/Program.cs:97 | The as-written and intended 64-bit coordinates agree if and only if the draw is in `[-2147, 2147]`. |
| `Store.LongCoordinateOverflow` | AlgoritmLesson3/Program.cs:97 | The draw 3000 should give 3000000000 but, as written, gives -1294967296. |
| `Benchmark.BenchmarkClass.constructor` | AlgoritmLesson3/Program.cs:90-102 | The four arrays are fresh and hold `ELEMENTS` values drawn iteration by iteration. Integer coordinates lie in `[MIN, MAX)`. 64-bit coordinates are the scaled draws. The cursor is the final draw in `[0, ELEMENTS)`. |
| `Benchmark.BenchmarkClass.GiveMeFloatCoordinates` | AlgoritmLesson3/Program.cs:112-119 | The cursor resets to 0 when it was past `ELEMENTS - 4` and otherwise grows by 2. The call returns the float pair at the new cursor, both indices in bounds. It keeps the invariant and changes no array, neither which arrays the fields hold nor their contents. |
| `Benchmark.BenchmarkClass.GiveMeDoubleCoordinates` | AlgoritmLesson3/Program.cs:125-132 | The same update of the same cursor, returning the double pair at the new cursor. Arrays unchanged. |
| `Benchmark.FloatThenDouble` | AlgoritmLesson3/Program.cs:112-132 | A float call followed by a double call moves one shared cursor. The double call reads the pair two calls on from the starting cursor. |
| `Benchmark.Calls` | AlgoritmLesson3/Program.cs:112-132 | Any sequence of float and double accessor calls, in any mix, leaves the cursor at `Iterate(p, n)` for `n` calls. The cursor stays valid and no array changes. So the lemmas about `Iterate` hold for real runs of calls. |
| `Benchmark.StartOnLastIndex` | AlgoritmLesson3/Program.cs:90-132 | With the cursor started on the last index, the first float call resets it and returns floats 0 and 1. The following double call returns doubles 2 and 3. |

## Findings

| source | as written | input that shows it | evidently intended | confidence | as-written member | corrected member |
|---|---|---|---|---|---|---|
| AlgoritmLesson3/Program.cs:97 | `rnd.Next(MIN, MAX) * 1000000` multiplies two 32-bit `int`s in an unchecked context. The product wraps modulo 2^32 before it is widened to `long`. | draw 3000: 3000000000 wraps to -1294967296. Every draw above 2147 or below -2147 is affected. | the draw times 10^6, computed in 64 bits, in `[-10^10, 9999 * 10^6]` | high; not executed | `Store.LongCoordinateAsWritten`, `Store.LongCoordinateOverflow`, `Store.AsWrittenAgreesIff` | `Store.LongCoordinate` (used by `Benchmark.BenchmarkClass.constructor`) |

## Left out

- The six distance routines (`PointDistance*`) are not modelled. They are float and double arithmetic with `MathF.Sqrt` and `Math.Sqrt`, and Dafny has no faithful floating-point model.
- The point classes and structs are not modelled. They exist to contrast heap allocation with value copies, which has no observable meaning here.
- `System.Random` is a foreign library. Its draws are parameters of the constructor, constrained only by the ranges `Next` promises.
- The float and double draws are arbitrary values of the element types. The model does not capture the arithmetic `NextDouble() * (MAX - MIN) - MAX` or the cast to `float`.
- The benchmark configuration (`MyConfig`), `Main` and the `[Benchmark]` entry methods are harness wiring and are not modelled. So is the float-to-double widening in `TestPointDistanceStructDoubleFromFloat`.
- The 32-bit width of `pointer` is not modelled: `Valid` keeps the cursor below 100000, so it never overflows.
- Benchmark.BenchmarkClass.constructor: fills the 64-bit array with the intended scaled draw (`Store.LongCoordinate`), not the wrapped value the source computes. The wrap is given under "## Findings".
