/**
 The numeric primitives the tuning scripts borrow from Python, pandas and
 numpy, stated over exact reals: a float that may be NaN, sums and means of
 series, `Series.diff()`, `abs`, `np.clip` and Python's `round(x, ndigits)`.
 */
module Numeric {

  /** A pandas float cell: either NaN or a number. */
  datatype Scalar = NaN | Num(value: real)

  /** A value that may be missing, e.g. because an index raised. */
  datatype Option<T> = None | Some(value: T)

  /** Python's `a < b` with a possibly-NaN left operand: NaN compares false. */
  predicate Below(a: Scalar, b: real) {
    a.Num? && a.value < b
  }

  /** Python's `a > b` with a possibly-NaN left operand: NaN compares false. */
  predicate Above(a: Scalar, b: real) {
    a.Num? && a.value > b
  }

  function Abs(x: real): (r: real)
    ensures r >= 0.0
    ensures r == x || r == -x
  {
    if x < 0.0 then -x else x
  }

  /** `abs()` applied to every element of a series. */
  function AbsAll(s: seq<real>): (r: seq<real>)
    ensures |r| == |s|
    ensures forall i :: 0 <= i < |s| ==> r[i] == Abs(s[i])
  {
    seq(|s|, i requires 0 <= i < |s| => Abs(s[i]))
  }

  /**
   `Series.diff()` without its leading NaN: the differences of consecutive
   elements (pandas' `mean` skips that NaN, so only these take part).
   */
  function Diff(s: seq<real>): (d: seq<real>)
    ensures |d| == if |s| == 0 then 0 else |s| - 1
    ensures forall i :: 0 <= i < |d| ==> d[i] == s[i + 1] - s[i]
  {
    if |s| == 0 then [] else seq(|s| - 1, i requires 0 <= i < |s| - 1 => s[i + 1] - s[i])
  }

  function Sum(s: seq<real>): real {
    if s == [] then 0.0 else Sum(s[..|s| - 1]) + s[|s| - 1]
  }

  lemma {:induction false} SumNonNegative(s: seq<real>)
    requires forall i :: 0 <= i < |s| ==> s[i] >= 0.0
    ensures Sum(s) >= 0.0
  {
    if s != [] {
      SumNonNegative(s[..|s| - 1]);
    }
  }

  lemma {:induction false} SumScaled(s: seq<real>, t: seq<real>, c: real)
    requires |s| == |t|
    requires forall i :: 0 <= i < |s| ==> t[i] == c * s[i]
    ensures Sum(t) == c * Sum(s)
  {
    if s != [] {
      SumScaled(s[..|s| - 1], t[..|t| - 1], c);
    }
  }

  lemma SumAppend(s: seq<real>, x: real)
    ensures Sum(s + [x]) == Sum(s) + x
  {
    assert (s + [x])[..|s|] == s;
  }

  /**
   pandas' `Series.mean()` on a series with no NaN left in it: NaN when the
   series is empty, the arithmetic mean otherwise.
   */
  function Mean(s: seq<real>): (m: Scalar)
    ensures m.Num? <==> |s| > 0
    ensures m.Num? && (forall i :: 0 <= i < |s| ==> s[i] >= 0.0) ==> m.value >= 0.0
  {
    if |s| == 0 then NaN
    else
      var total := Sum(s);
      assert (forall i :: 0 <= i < |s| ==> s[i] >= 0.0) ==> total >= 0.0 by {
        if forall i :: 0 <= i < |s| ==> s[i] >= 0.0 {
          SumNonNegative(s);
        }
      }
      Num(total / (|s| as real))
  }

  /** `np.clip(x, lo, hi)`. */
  function Clip(x: real, lo: real, hi: real): (r: real)
    requires lo <= hi
    ensures lo <= r <= hi
    ensures lo <= x <= hi ==> r == x
    ensures x < lo ==> r == lo
    ensures x > hi ==> r == hi
  {
    if x < lo then lo else if x > hi then hi else x
  }

  function Pow10(n: nat): (p: real)
    ensures p >= 1.0
  {
    if n == 0 then 1.0 else 10.0 * Pow10(n - 1)
  }

  /**
   Rounds to the nearest integer, a tie going to the even neighbour, which is
   how Python's `round` settles halves.
   */
  function RoundHalfEven(y: real): (m: int)
    ensures -0.5 <= m as real - y <= 0.5
    ensures (m as real - y == 0.5 || y - m as real == 0.5) ==> m % 2 == 0
  {
    var f := y.Floor;
    var frac := y - f as real;
    if frac < 0.5 then f
    else if frac > 0.5 then f + 1
    else if f % 2 == 0 then f
    else f + 1
  }

  lemma RoundHalfEvenWhole(k: int)
    ensures RoundHalfEven(k as real) == k
  {
    assert (k as real).Floor == k;
  }

  /** Rounds `x` to the nearest multiple of `1 / scale`, halves to even. */
  function RoundAtScale(x: real, scale: real): real
    requires scale > 0.0
  {
    RoundHalfEven(x * scale) as real / scale
  }

  /**
   Python's `round(x, ndigits)` read on exact reals: the multiple of
   10^-ndigits nearest to `x`, halves to even. The scripts call it with two
   and with three digits; the lemmas below state what it does there.
   */
  function Round(x: real, ndigits: nat): real {
    RoundAtScale(x, Pow10(ndigits))
  }

  /** `round(x, 2)` is a whole number of hundredths within half a hundredth of `x`. */
  lemma RoundTwoDigits(x: real)
    ensures Round(x, 2) * 100.0 == RoundHalfEven(x * 100.0) as real
    ensures -0.005 <= Round(x, 2) - x <= 0.005
    ensures x >= 0.0 ==> Round(x, 2) >= 0.0
  {
    assert Pow10(2) == 100.0;
    assert Round(x, 2) == RoundAtScale(x, 100.0);
  }

  /** `round(x, 3)` is a whole number of thousandths within half a thousandth of `x`. */
  lemma RoundThreeDigits(x: real)
    ensures Round(x, 3) * 1000.0 == RoundHalfEven(x * 1000.0) as real
    ensures -0.0005 <= Round(x, 3) - x <= 0.0005
    ensures x >= 0.0 ==> Round(x, 3) >= 0.0
  {
    assert Pow10(3) == 1000.0;
    assert Round(x, 3) == RoundAtScale(x, 1000.0);
  }

  /** `round(x, 3)` leaves a whole number of thousandths alone. */
  lemma RoundThreeOnGrid(k: int)
    ensures Round(k as real / 1000.0, 3) == k as real / 1000.0
  {
    var y := k as real / 1000.0;
    RoundThreeDigits(y);
    assert y * 1000.0 == k as real;
    RoundHalfEvenWhole(k);
  }
}
