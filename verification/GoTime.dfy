/** time.Duration arithmetic: nanoseconds in a 64-bit integer that wraps around. */
module GoTime {
  const SECOND: int := 1_000_000_000
  const MINUTE: int := 60 * SECOND
  const HOUR: int := 60 * MINUTE

  const TWO_TO_63: int := 0x8000_0000_0000_0000
  const TWO_TO_64: int := 0x1_0000_0000_0000_0000

  function Wrap64(x: int): (r: int)
    ensures -TWO_TO_63 <= r < TWO_TO_63
    ensures -TWO_TO_63 <= x < TWO_TO_63 ==> r == x
  {
    (x + TWO_TO_63) % TWO_TO_64 - TWO_TO_63
  }

  /** Go's integer division truncates toward zero. */
  function TruncDiv(a: int, b: int): int
    requires b > 0
  {
    if a >= 0 then a / b else -((-a) / b)
  }

  /** time.Duration(n) * time.Second. */
  function Seconds(n: int): int { Wrap64(n * SECOND) }

  /** int((otpTTL + time.Minute - 1) / time.Minute) of the configured number of seconds. */
  function ExpiresInMinutes(otpTTL: int): int {
    TruncDiv(Wrap64(Wrap64(Seconds(otpTTL) + MINUTE) - 1), MINUTE)
  }

  lemma Quotient(x: int, q: int)
    requires x >= 0 && q == x / MINUTE
    ensures q * MINUTE <= x < (q + 1) * MINUTE
  {
  }

  /** The published minutes are the ceiling of a positive TTL as long as the nanoseconds fit. */
  lemma MinutesAreTheCeiling(otpTTL: int)
    requires 0 < otpTTL && otpTTL * SECOND + MINUTE < TWO_TO_63
    ensures var m := ExpiresInMinutes(otpTTL); m >= 1 && 60 * (m - 1) < otpTTL <= 60 * m
  {
    var d := otpTTL * SECOND;
    assert Seconds(otpTTL) == d;
    var m := ExpiresInMinutes(otpTTL);
    assert m == (d + MINUTE - 1) / MINUTE;
    Quotient(d + MINUTE - 1, m);
    assert m * MINUTE <= d + MINUTE - 1 < (m + 1) * MINUTE;
    assert m * 60 * SECOND <= (otpTTL + 60) * SECOND - 1;
  }

  lemma MinutesSign(x: int)
    ensures TruncDiv(x, MINUTE) > 0 <==> x >= MINUTE
  {
    if x >= 0 { Quotient(x, x / MINUTE); } else { Quotient(-x, (-x) / MINUTE); }
  }

  /** For every configuration: the minutes are positive exactly when the TTL is and adding a minute does not overflow. */
  lemma MinutesPositiveExactly(otpTTL: int)
    ensures ExpiresInMinutes(otpTTL) > 0 <==> 0 < Seconds(otpTTL) <= TWO_TO_63 - MINUTE
  {
    var d := Seconds(otpTTL);
    var sum := Wrap64(d + MINUTE);
    WrapSum(d);
    MinutesSign(Wrap64(sum - 1));
  }

  lemma WrapSum(d: int)
    requires -TWO_TO_63 <= d < TWO_TO_63
    ensures Wrap64(d + MINUTE) == if d + MINUTE < TWO_TO_63 then d + MINUTE else d + MINUTE - TWO_TO_64
  {
  }
}
