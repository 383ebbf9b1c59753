/** The coordinate store of the benchmark: its size, the range of the
    random draws, and how a draw becomes a 64-bit coordinate. */
module Store {

  /** Number of elements in each coordinate array. */
  const ELEMENTS: int := 100000
  /** Lower bound of a drawn coordinate (inclusive). */
  const MIN: int := -10000
  /** Upper bound of a drawn coordinate (exclusive, as `Random.Next(MIN, MAX)` draws). */
  const MAX: int := 10000
  /** Factor by which a draw is scaled for the 64-bit coordinate array. */
  const SCALE: int := 1000000

  const TWO_POW_31: int := 0x8000_0000
  const TWO_POW_32: int := 0x1_0000_0000

  /** A draw of `Random.Next(MIN, MAX)`. */
  predicate IsDraw(v: int) {
    MIN <= v < MAX
  }

  /** The value an unchecked 32-bit signed integer operation leaves behind
      when its mathematical result is `x`. */
  function Int32Wrap(x: int): (r: int)
    ensures -TWO_POW_31 <= r < TWO_POW_31
    ensures -TWO_POW_31 <= x < TWO_POW_31 ==> r == x
    ensures (x - r) % TWO_POW_32 == 0
  {
    (x + TWO_POW_31) % TWO_POW_32 - TWO_POW_31
  }

  /** The 64-bit coordinate as the constructor computes it: the draw and the
      factor are both 32-bit, so the product wraps before it is widened. */
  function LongCoordinateAsWritten(draw: int): (r: int)
    ensures -TWO_POW_31 <= r < TWO_POW_31
  {
    Int32Wrap(draw * SCALE)
  }

  /** The 64-bit coordinate as intended: the draw scaled by a million. */
  function LongCoordinate(draw: int): (r: int)
    requires IsDraw(draw)
    ensures MIN * SCALE <= r <= (MAX - 1) * SCALE
    ensures r % SCALE == 0 && r / SCALE == draw
  {
    draw * SCALE
  }

  /** The as-written product agrees with the intended one exactly for the
      draws whose scaled value fits in 32 bits, i.e. |draw| <= 2147. */
  lemma AsWrittenAgreesIff(draw: int)
    requires IsDraw(draw)
    ensures LongCoordinateAsWritten(draw) == LongCoordinate(draw) <==> -2147 <= draw <= 2147
  {
  }

  /** A concrete draw for which the as-written 64-bit coordinate is wrong:
      3000 scaled by a million wraps to a negative number. */
  lemma LongCoordinateOverflow()
    ensures IsDraw(3000)
    ensures LongCoordinate(3000) == 3000000000
    ensures LongCoordinateAsWritten(3000) == -1294967296
  {
  }
}
