/** The state of the benchmark: four coordinate arrays filled once by the
    constructor, and one cursor that both coordinate accessors move. */
module Benchmark {
  import opened Store
  import opened Cursor

  /** `F` and `D` stand for the single- and double-precision element types;
      the accessors only move their values around, never compute with them. */
  class BenchmarkClass<F(0), D(0)> {
    var pointer: int
    var randomIntCoordinates: array<int>
    var randomLongCoordinates: array<int>
    var randomFloatCoordinates: array<F>
    var randomDoubleCoordinates: array<D>

    /** Every array holds `ELEMENTS` values and the cursor is an index into them. */
    ghost predicate Valid()
      reads this
    {
      randomIntCoordinates.Length == ELEMENTS &&
      randomLongCoordinates.Length == ELEMENTS &&
      randomFloatCoordinates.Length == ELEMENTS &&
      randomDoubleCoordinates.Length == ELEMENTS &&
      0 <= pointer < ELEMENTS
    }

    /** The four arrays themselves. */
    ghost function Arrays(): (array<int>, array<int>, array<F>, array<D>)
      reads this
    {
      (randomIntCoordinates, randomLongCoordinates, randomFloatCoordinates, randomDoubleCoordinates)
    }

    /** The contents of the four arrays. */
    ghost function Coordinates(): (seq<int>, seq<int>, seq<F>, seq<D>)
      reads this, randomIntCoordinates, randomLongCoordinates, randomFloatCoordinates, randomDoubleCoordinates
    {
      (randomIntCoordinates[..], randomLongCoordinates[..], randomFloatCoordinates[..], randomDoubleCoordinates[..])
    }

    /** Fills the arrays index by index from the random source and places the
        cursor at a random position. The random source is given as the values
        it yields: `ints[i]` and `longs[i]` are the two `Next(MIN, MAX)` draws,
        `floats[i]` and `doubles[i]` the two scaled `NextDouble()` draws of
        iteration `i`, and `start` the final `Next(ELEMENTS)` draw. */
    constructor (ints: seq<int>, longs: seq<int>, floats: seq<F>, doubles: seq<D>, start: int)
      requires |ints| == |longs| == |floats| == |doubles| == ELEMENTS
      requires forall i :: 0 <= i < ELEMENTS ==> IsDraw(ints[i])
      requires forall i :: 0 <= i < ELEMENTS ==> IsDraw(longs[i])
      requires 0 <= start < ELEMENTS
      ensures Valid()
      ensures fresh(randomIntCoordinates) && fresh(randomLongCoordinates)
      ensures fresh(randomFloatCoordinates) && fresh(randomDoubleCoordinates)
      ensures pointer == start
      ensures randomIntCoordinates[..] == ints
      ensures forall i :: 0 <= i < ELEMENTS ==> randomLongCoordinates[i] == LongCoordinate(longs[i])
      ensures randomFloatCoordinates[..] == floats
      ensures randomDoubleCoordinates[..] == doubles
      ensures forall i :: 0 <= i < ELEMENTS ==> MIN <= randomIntCoordinates[i] < MAX
      ensures forall i :: 0 <= i < ELEMENTS ==>
                MIN * SCALE <= randomLongCoordinates[i] <= (MAX - 1) * SCALE
    {
      pointer := 0;
      randomIntCoordinates := new int[ELEMENTS];
      randomLongCoordinates := new int[ELEMENTS];
      randomFloatCoordinates := new F[ELEMENTS];
      randomDoubleCoordinates := new D[ELEMENTS];
      new;
      for i := 0 to ELEMENTS
        modifies randomIntCoordinates, randomLongCoordinates, randomFloatCoordinates, randomDoubleCoordinates
        invariant forall j :: 0 <= j < i ==> randomIntCoordinates[j] == ints[j]
        invariant forall j :: 0 <= j < i ==> randomLongCoordinates[j] == LongCoordinate(longs[j])
        invariant forall j :: 0 <= j < i ==> randomFloatCoordinates[j] == floats[j]
        invariant forall j :: 0 <= j < i ==> randomDoubleCoordinates[j] == doubles[j]
      {
        randomIntCoordinates[i] := ints[i];
        randomLongCoordinates[i] := LongCoordinate(longs[i]);
        randomFloatCoordinates[i] := floats[i];
        randomDoubleCoordinates[i] := doubles[i];
      }
      pointer := start;
    }

    /** Moves the shared cursor and returns the float pair it now points at. */
    method GiveMeFloatCoordinates() returns (pair: (F, F))
      requires Valid()
      modifies this`pointer
      ensures Valid()
      ensures old(pointer) > ELEMENTS - 4 ==> pointer == 0
      ensures old(pointer) <= ELEMENTS - 4 ==> pointer == old(pointer) + 2
      ensures pointer == Advance(old(pointer))
      ensures 0 <= pointer && pointer + 1 < ELEMENTS
      ensures pair == (randomFloatCoordinates[pointer], randomFloatCoordinates[pointer + 1])
      ensures Arrays() == old(Arrays()) && Coordinates() == old(Coordinates())
    {
      if pointer > ELEMENTS - 4 {
        pointer := 0;
      } else {
        pointer := pointer + 2;
      }
      pair := (randomFloatCoordinates[pointer], randomFloatCoordinates[pointer + 1]);
    }

    /** Moves the same shared cursor and returns the double pair it now points at. */
    method GiveMeDoubleCoordinates() returns (pair: (D, D))
      requires Valid()
      modifies this`pointer
      ensures Valid()
      ensures old(pointer) > ELEMENTS - 4 ==> pointer == 0
      ensures old(pointer) <= ELEMENTS - 4 ==> pointer == old(pointer) + 2
      ensures pointer == Advance(old(pointer))
      ensures 0 <= pointer && pointer + 1 < ELEMENTS
      ensures pair == (randomDoubleCoordinates[pointer], randomDoubleCoordinates[pointer + 1])
      ensures Arrays() == old(Arrays()) && Coordinates() == old(Coordinates())
    {
      if pointer > ELEMENTS - 4 {
        pointer := 0;
      } else {
        pointer := pointer + 2;
      }
      pair := (randomDoubleCoordinates[pointer], randomDoubleCoordinates[pointer + 1]);
    }
  }

  /** Which of the two accessors a call goes to. */
  datatype Accessor = FloatCall | DoubleCall

  /** A run of accessor calls in any mix: each call, whichever accessor it
      goes to, moves the one shared cursor, so after `n` calls it is at
      `Iterate` of the start and `n`. */
  method Calls<F(0), D(0)>(b: BenchmarkClass<F, D>, kinds: seq<Accessor>)
    requires b.Valid()
    modifies b`pointer
    ensures b.Valid()
    ensures b.pointer == Iterate(old(b.pointer), |kinds|)
    ensures b.Arrays() == old(b.Arrays()) && b.Coordinates() == old(b.Coordinates())
  {
    for i := 0 to |kinds|
      invariant b.Valid()
      invariant b.pointer == Iterate(old(b.pointer), i)
      invariant b.Arrays() == old(b.Arrays()) && b.Coordinates() == old(b.Coordinates())
    {
      match kinds[i] {
        case FloatCall =>
          var _ := b.GiveMeFloatCoordinates();
        case DoubleCall =>
          var _ := b.GiveMeDoubleCoordinates();
      }
      IterateSnoc(old(b.pointer), i);
    }
  }

  /** A float call followed by a double call: the double call reads the pair
      after the one the float call read, because both move one cursor. */
  method FloatThenDouble<F(0), D(0)>(b: BenchmarkClass<F, D>) returns (f: (F, F), d: (D, D))
    requires b.Valid()
    modifies b`pointer
    ensures b.Valid()
    ensures b.pointer == Iterate(old(b.pointer), 2)
    ensures var q := Iterate(old(b.pointer), 1);
            f == (b.randomFloatCoordinates[q], b.randomFloatCoordinates[q + 1])
    ensures d == (b.randomDoubleCoordinates[b.pointer], b.randomDoubleCoordinates[b.pointer + 1])
    ensures b.Arrays() == old(b.Arrays()) && b.Coordinates() == old(b.Coordinates())
  {
    f := b.GiveMeFloatCoordinates();
    d := b.GiveMeDoubleCoordinates();
    IterateSnoc(old(b.pointer), 1);
  }

  /** A cursor placed on the last index is reset by the first call, which
      reads the first pair; the next call, of the other kind, reads the second. */
  method StartOnLastIndex<F(0), D(0)>(ints: seq<int>, longs: seq<int>, floats: seq<F>, doubles: seq<D>)
    returns (f: (F, F), d: (D, D))
    requires |ints| == |longs| == |floats| == |doubles| == ELEMENTS
    requires forall i :: 0 <= i < ELEMENTS ==> IsDraw(ints[i])
    requires forall i :: 0 <= i < ELEMENTS ==> IsDraw(longs[i])
    ensures f == (floats[0], floats[1])
    ensures d == (doubles[2], doubles[3])
  {
    var b := new BenchmarkClass(ints, longs, floats, doubles, ELEMENTS - 1);
    f := b.GiveMeFloatCoordinates();
    d := b.GiveMeDoubleCoordinates();
  }
}
