/** The numeric library the simulator relies on (Python's `math`/`numpy`
    functions and `round`), over exact reals.

    The transcendental functions cannot be computed here, so they are carried
    as values of a `MathLib` record and stay uninterpreted; the only facts
    known about them are the ones their types state (a square root is never
    negative, an exponential is always positive). Rounding, in contrast, is
    defined exactly. */
module Numerics {

  type NonNegReal = r: real | r >= 0.0
  type PosReal = r: real | r > 0.0 witness 1.0

  /** `math.sqrt`, `np.log10`, `np.exp`, `np.cos` and `np.sin`. */
  datatype MathLib = MathLib(
    sqrt: real -> NonNegReal,
    log10: real -> real,
    exp: real -> PosReal,
    cos: real -> real,
    sin: real -> real)

  /** `np.pi` / `math.pi`, the double closest to pi, written out. */
  const Pi: real := 3.141592653589793

  /** `math.radians`. */
  function Radians(degrees: real): real {
    degrees * (Pi / 180.0)
  }

  /** Python's `round(r)`: the nearest integer, ties to the even neighbour. */
  function RoundHalfEven(r: real): (n: int)
    ensures r - 0.5 <= n as real <= r + 0.5
    ensures r - r.Floor as real != 0.5 ==> r - 0.5 < n as real < r + 0.5
    ensures r - r.Floor as real == 0.5 ==> n % 2 == 0
  {
    var f := r.Floor;
    var frac := r - f as real;
    if frac < 0.5 then f
    else if frac > 0.5 then f + 1
    else if f % 2 == 0 then f
    else f + 1
  }

  /** A rounded value is never below an integer it was not below. */
  lemma RoundHalfEvenAtLeast(r: real, k: int)
    requires r >= k as real
    ensures RoundHalfEven(r) >= k
  {
    assert r.Floor >= k;
  }

  /** Rounding an integer gives it back. */
  lemma RoundHalfEvenOfInt(k: int)
    ensures RoundHalfEven(k as real) == k
  {
    assert (k as real).Floor == k;
  }

  /** `position_rounding`: the engine rounds positions to 9 decimals. */
  const PositionDigits: nat := 9

  /** 10^k. */
  function Pow10(k: nat): (p: real)
    ensures p >= 1.0
  {
    if k == 0 then 1.0 else 10.0 * Pow10(k - 1)
  }

  /** 10^PositionDigits, the scale of the position rounding. */
  const PositionScale: real := 1000000000.0

  /** The scale used by `RoundPosition` is 10 to the number of digits kept. */
  lemma PositionScaleIsPow10()
    ensures PositionScale == Pow10(PositionDigits)
  {
    assert Pow10(3) == 1000.0;
    assert Pow10(6) == 1000.0 * Pow10(3) by {
      assert Pow10(6) == 10.0 * Pow10(5) == 100.0 * Pow10(4) == 1000.0 * Pow10(3);
    }
    assert Pow10(9) == 1000.0 * Pow10(6) by {
      assert Pow10(9) == 10.0 * Pow10(8) == 100.0 * Pow10(7) == 1000.0 * Pow10(6);
    }
  }

  /** Python's `round(r, ndigits=9)` on exact reals: the nearest multiple of
      10^-9, ties to the even multiple. */
  function RoundPosition(r: real): real {
    RoundHalfEven(r * PositionScale) as real / PositionScale
  }

  /** Rounding twice is rounding once: a position the engine has rounded is
      left unchanged by the next rounding. */
  lemma RoundPositionIdempotent(r: real)
    ensures RoundPosition(RoundPosition(r)) == RoundPosition(r)
  {
    var n := RoundHalfEven(r * PositionScale);
    assert RoundPosition(r) * PositionScale == n as real;
    RoundHalfEvenOfInt(n);
  }

  /** A rounded position is within half a unit of the ninth decimal of the
      exact one. */
  lemma RoundPositionError(r: real)
    ensures -0.5 / PositionScale <= RoundPosition(r) - r <= 0.5 / PositionScale
  {
    var n := RoundHalfEven(r * PositionScale);
    assert r * PositionScale - 0.5 <= n as real <= r * PositionScale + 0.5;
  }
}
