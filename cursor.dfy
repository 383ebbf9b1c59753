/** The coordinate cursor shared by the float and double accessors: the
    update one accessor call applies to it, the position it reaches after a
    run of calls, and where those positions lie. */
module Cursor {
  import opened Store

  /** Number of calls after which a cursor started at 0 is back at 0. */
  const CYCLE: int := ELEMENTS / 2

  /** The cursor update of one accessor call: back to 0 when the cursor is
      past `ELEMENTS - 4`, otherwise two positions on. The new value is the
      index of the first coordinate the call returns. */
  function Advance(p: int): (q: int)
    // both indices the call reads, q and q + 1, are inside the array
    ensures 0 <= p < ELEMENTS ==> 0 <= q && q + 1 < ELEMENTS
    // the cursor moves on by two exactly when the next pair is still inside
    // the array, and is reset to 0 otherwise: the threshold wastes no pair
    ensures q == p + 2 <==> p + 3 < ELEMENTS
    ensures q != p + 2 ==> q == 0
  {
    if p > ELEMENTS - 4 then 0 else p + 2
  }

  /** The cursor after `n` accessor calls, whichever accessors they are. */
  function Iterate(p: int, n: nat): (r: int)
    ensures 0 <= p < ELEMENTS ==> 0 <= r < ELEMENTS
    ensures 0 <= p < ELEMENTS && n > 0 ==> r + 1 < ELEMENTS
    decreases n
  {
    if n == 0 then p else Iterate(Advance(p), n - 1)
  }

  /** One more call applies `Advance` to where `n` calls left the cursor. */
  lemma {:induction false} IterateSnoc(p: int, n: nat)
    ensures Iterate(p, n + 1) == Advance(Iterate(p, n))
    decreases n
  {
    if n > 0 {
      IterateSnoc(Advance(p), n - 1);
    }
  }

  /** Calls compose: `m` calls followed by `n` calls are `m + n` calls. */
  lemma {:induction false} IterateAdd(p: int, m: nat, n: nat)
    ensures Iterate(p, m + n) == Iterate(Iterate(p, m), n)
    decreases m
  {
    if m > 0 {
      IterateAdd(Advance(p), m - 1, n);
    }
  }

  /** From any valid start the cursor walks on by two until it is reset to
      0, which happens within `(ELEMENTS - p + 1) / 2` calls. */
  function CallsUntilReset(p: int): (k: nat)
    requires 0 <= p < ELEMENTS
    ensures 1 <= k <= (ELEMENTS - p + 1) / 2
    ensures Iterate(p, k) == 0
    ensures forall j :: 0 <= j < k ==> Iterate(p, j) == p + 2 * j
    decreases ELEMENTS - p
  {
    if p > ELEMENTS - 4 then 1
    else
      var k := 1 + CallsUntilReset(p + 2);
      assert forall j :: 1 <= j < k ==> Iterate(p, j) == Iterate(p + 2, j - 1);
      k
  }

  /** Started at 0, the cursor visits 2, 4, ..., ELEMENTS - 2 in turn and
      is back at 0 after exactly `CYCLE` calls. */
  lemma {:induction false} FromZero(k: nat)
    requires k <= CYCLE
    ensures Iterate(0, k) == if k == CYCLE then 0 else 2 * k
  {
    if k > 0 {
      FromZero(k - 1);
      IterateSnoc(0, k - 1);
    }
  }

  /** An even cursor stays even, whatever calls follow. */
  lemma {:induction false} EvenStaysEven(p: int, n: nat)
    requires p % 2 == 0
    ensures Iterate(p, n) % 2 == 0
    decreases n
  {
    if n > 0 {
      EvenStaysEven(Advance(p), n - 1);
    }
  }

  /** Once a call has reset the cursor to 0, it is even ever after. */
  lemma EvenAfterReset(p: int, n: nat, k: nat)
    requires Iterate(p, n) == 0
    ensures Iterate(p, n + k) % 2 == 0
  {
    IterateAdd(p, n, k);
    EvenStaysEven(0, k);
  }

  /** From any valid start, every pair (i, i + 1) with i even is read within
      2 * CYCLE calls: no index of the array is left out. */
  lemma EveryPairVisited(p: int, i: int)
    requires 0 <= p < ELEMENTS
    requires 0 <= i <= ELEMENTS - 2 && i % 2 == 0
    ensures exists k: nat :: 1 <= k <= 2 * CYCLE && Iterate(p, k) == i
  {
    var n := CallsUntilReset(p);
    if i == 0 {
      assert 1 <= n <= 2 * CYCLE && Iterate(p, n) == i;
    } else {
      IterateAdd(p, n, i / 2);
      FromZero(i / 2);
      assert 1 <= n + i / 2 <= 2 * CYCLE && Iterate(p, n + i / 2) == i;
    }
  }
}
