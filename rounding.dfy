/**
 * The guarded percentage the analysis computes twice: the savings ratio and
 * each category's share. Python's round(x, 2) rounds the exact value of x to
 * two decimals, a tie going to the even neighbour; here it is applied to the
 * exact real value.
 */
module Rounding {

  /** The integer nearest to y, a tie going to the even one. */
  function RoundHalfEven(y: real): (n: int)
    ensures y - 0.5 <= n as real <= y + 0.5
    ensures (n as real == y - 0.5 || n as real == y + 0.5) ==> n % 2 == 0
  {
    var f := y.Floor;
    var frac := y - f as real;
    if frac < 0.5 then f
    else if frac > 0.5 then f + 1
    else if f % 2 == 0 then f
    else f + 1
  }

  /** x rounded to two decimal places. */
  function Round2(x: real): (r: real)
    ensures x - 0.005 <= r <= x + 0.005
    ensures x >= 0.0 ==> r >= 0.0
  {
    RoundHalfEven(x * 100.0) as real / 100.0
  }

  /**
   * round(part / whole * 100, 2) when whole is non-zero, and 0 when it is
   * zero: the division is never attempted on a zero total.
   */
  function Percent(part: real, whole: real): (p: real)
    ensures whole == 0.0 ==> p == 0.0
    ensures whole != 0.0 ==> part / whole * 100.0 - 0.005 <= p <= part / whole * 100.0 + 0.005
  {
    if whole == 0.0 then 0.0 else Round2(part / whole * 100.0)
  }

  /** Away from a zero total, the percentage is the exact one rounded to two decimals. */
  lemma PercentOfNonZero(part: real, whole: real)
    requires whole != 0.0
    ensures Percent(part, whole) == Round2(part / whole * 100.0)
  {
  }

  /**
   * A rounded percentage exceeds 50 exactly when the exact value exceeds
   * 50.005: at 50.005 itself the tie goes to the even 50.00.
   */
  lemma AboveFiftyAfterRounding(x: real)
    ensures Round2(x) > 50.0 <==> x > 50.005
  {
    var y := x * 100.0;
    var n := RoundHalfEven(y);
    var f := y.Floor;
    assert Round2(x) == n as real / 100.0;
    if x > 50.005 {
      assert y > 5000.5;
      assert f >= 5000;
      if f == 5000 {
        assert y - f as real > 0.5;
        assert n == 5001;
      } else {
        assert n >= f;
      }
    } else {
      assert y <= 5000.5;
      assert f <= 5000;
      if f == 5000 {
        assert n == 5000;
      } else {
        assert n <= f + 1;
      }
    }
  }
}
