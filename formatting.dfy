/**
 * The "m:ss" rendering of a number of seconds shared by the exercise screen
 * (`formatTime`, `String(format: "%d:%02d")`) and the history screens
 * (`formatDuration`), with Swift's integer division and remainder, which
 * truncate toward zero.
 */
module ClockText {

  /** Swift's `a / b` for `b > 0`: the quotient truncated toward zero. */
  function Quot(a: int, b: int): int
    requires b > 0
  {
    if a >= 0 then a / b else -((-a) / b)
  }

  /** Swift's `a % b` for `b > 0`: it takes the sign of `a`. */
  function Rem(a: int, b: int): (r: int)
    requires b > 0
    ensures Quot(a, b) * b + r == a
    ensures a >= 0 ==> 0 <= r < b
    ensures a < 0 ==> -b < r <= 0
  {
    a - Quot(a, b) * b
  }

  function DigitChar(d: int): (c: char)
    requires 0 <= d < 10
    ensures '0' <= c <= '9'
  {
    (48 + d) as char
  }

  /** The decimal digits of `n`, without leading zeros. */
  function Decimal(n: nat): (s: string)
    ensures |s| >= 1
    ensures forall i :: 0 <= i < |s| ==> '0' <= s[i] <= '9'
    ensures n < 10 <==> |s| == 1
    ensures n > 0 ==> s[0] != '0'
  {
    if n < 10 then [DigitChar(n)] else Decimal(n / 10) + [DigitChar(n % 10)]
  }

  /** `"\(n)"` and `"%d"` for any integer. */
  function IntText(n: int): string {
    if n < 0 then "-" + Decimal(-n) else Decimal(n)
  }

  /** `"%02d"`: at least two characters, zero-padded on the left. */
  function TwoDigits(n: int): string {
    if 0 <= n < 10 then "0" + Decimal(n) else IntText(n)
  }

  /** `seconds / 60`, a colon, then `seconds % 60` in two digits. */
  function Clock(seconds: int): string {
    IntText(Quot(seconds, 60)) + ":" + TwoDigits(Rem(seconds, 60))
  }

  /** The value of a string of decimal digits. */
  function DigitsValue(s: string): int {
    if s == [] then 0 else DigitsValue(s[..|s| - 1]) * 10 + (s[|s| - 1] as int - 48)
  }

  lemma {:induction false} DecimalValue(n: nat)
    ensures DigitsValue(Decimal(n)) == n
  {
    if n >= 10 {
      var s := Decimal(n);
      assert s[..|s| - 1] == Decimal(n / 10);
      DecimalValue(n / 10);
    }
  }

  /** Reads an "m:ss" text back as seconds. */
  function ParseClock(t: string): (r: int)
    requires |t| >= 4
  {
    DigitsValue(t[..|t| - 3]) * 60 + DigitsValue(t[|t| - 2..])
  }

  /** For 0 to 59, `"%02d"` is exactly two digits that read back as the number. */
  lemma {:induction false} TwoDigitsValue(r: int)
    requires 0 <= r < 60
    ensures var t := TwoDigits(r);
      |t| == 2 && '0' <= t[0] <= '9' && '0' <= t[1] <= '9' && DigitsValue(t) == r
  {
    DecimalValue(r);
    var t := TwoDigits(r);
    if r < 10 {
      assert t[..1] == "0";
    }
  }

  /**
   * For a non-negative number of seconds the text is the minutes, a colon
   * and exactly two digits of seconds, and reading it back gives the number.
   */
  lemma {:induction false} ClockRoundTrip(seconds: nat)
    ensures var t := Clock(seconds);
      && |t| >= 4
      && t[|t| - 3] == ':'
      && (forall i :: 0 <= i < |t| && i != |t| - 3 ==> '0' <= t[i] <= '9')
      && ParseClock(t) == seconds
  {
    var m, r := seconds / 60, seconds % 60;
    var ms, rs := Decimal(m), TwoDigits(r);
    var t := Clock(seconds);
    ClockParts(seconds);
    TwoDigitsValue(r);
    DecimalValue(m);
    ColonJoin(t, ms, rs);
  }

  /** Minutes digits, a colon and two seconds digits read back field by field. */
  lemma ColonJoin(t: string, ms: string, rs: string)
    requires t == ms + ":" + rs
    requires |ms| >= 1 && |rs| == 2
    requires forall i :: 0 <= i < |ms| ==> '0' <= ms[i] <= '9'
    requires '0' <= rs[0] <= '9' && '0' <= rs[1] <= '9'
    ensures |t| >= 4
    ensures t[|t| - 3] == ':'
    ensures forall i :: 0 <= i < |t| && i != |t| - 3 ==> '0' <= t[i] <= '9'
    ensures ParseClock(t) == DigitsValue(ms) * 60 + DigitsValue(rs)
  {
    assert t[..|t| - 3] == ms;
    assert t[|t| - 2..] == rs;
  }

  /** For a non-negative count, Swift's division and remainder are Euclid's. */
  lemma ClockParts(seconds: nat)
    ensures Clock(seconds) == Decimal(seconds / 60) + ":" + TwoDigits(seconds % 60)
  {
    assert Quot(seconds, 60) == seconds / 60;
    assert Rem(seconds, 60) == seconds % 60;
  }
}
