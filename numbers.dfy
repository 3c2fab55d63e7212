/** Number formatting the dashboard relies on: `toFixed(1)` and the decimal
    rendering of whole numbers in template strings. */
module Numbers {
  import opened Telemetry

  /** The nearest whole number of tenths to `y`, halves rounded up. */
  function Tenths(y: real): (k: int)
    ensures y * 10.0 - 0.5 < k as real <= y * 10.0 + 0.5
  {
    (y * 10.0 + 0.5).Floor
  }

  /** `x.toFixed(1)` read back as a number: the nearest tenth, halves rounded
      away from zero (exact real arithmetic instead of IEEE-754 doubles). */
  function Round1(x: real): (r: real)
    ensures -0.05 <= r - x <= 0.05
    ensures (r * 10.0).Floor as real == r * 10.0
    ensures x >= 0.0 ==> r >= 0.0
  {
    var k := if x >= 0.0 then Tenths(x) else -Tenths(-x);
    assert (k as real / 10.0) * 10.0 == k as real;
    assert (k as real).Floor == k;
    k as real / 10.0
  }

  /** Rounding a value that is already a whole number of tenths changes
      nothing. */
  lemma Round1Idempotent(x: real)
    ensures Round1(Round1(x)) == Round1(x)
  {
    var r := Round1(x);
    var k := (r * 10.0).Floor;
    if r >= 0.0 {
      assert r * 10.0 + 0.5 == k as real + 0.5;
      assert Tenths(r) == k;
    } else {
      assert (-r) * 10.0 + 0.5 == (-k) as real + 0.5;
      assert Tenths(-r) == -k;
    }
  }

  function DigitChar(d: nat): (c: char)
    requires d < 10
    ensures '0' <= c <= '9' && c as int - '0' as int == d
  {
    (d + '0' as int) as char
  }

  /** The decimal digits of `n`, without leading zeros. */
  function NatToString(n: nat): (s: string)
    ensures 1 <= |s|
    ensures forall i :: 0 <= i < |s| ==> '0' <= s[i] <= '9'
    ensures |s| > 1 ==> s[0] != '0'
  {
    if n < 10 then [DigitChar(n)] else NatToString(n / 10) + [DigitChar(n % 10)]
  }

  /** The value of a string of decimal digits. */
  function DigitsValue(s: string): nat
    requires forall i :: 0 <= i < |s| ==> '0' <= s[i] <= '9'
  {
    if |s| == 0 then 0
    else DigitsValue(s[..|s| - 1]) * 10 + (s[|s| - 1] as int - '0' as int)
  }

  /** The rendering is read back to the same number, so distinct numbers
      render differently. */
  lemma {:induction false} NatToStringRoundTrip(n: nat)
    ensures DigitsValue(NatToString(n)) == n
  {
    if n >= 10 {
      var s := NatToString(n);
      assert s[..|s| - 1] == NatToString(n / 10);
      NatToStringRoundTrip(n / 10);
    }
  }

  predicate IsDigit(c: char) { '0' <= c <= '9' }

  /** The length of the run of digits that starts `s`. */
  function DigitCount(s: string): (k: nat)
    ensures k <= |s|
    ensures forall i :: 0 <= i < k ==> IsDigit(s[i])
    ensures k < |s| ==> !IsDigit(s[k])
  {
    if s == [] || !IsDigit(s[0]) then 0 else 1 + DigitCount(s[1..])
  }

  /** A digit string followed by a non-digit splits at its end. */
  lemma {:induction false} DigitCountPrefix(d: string, tail: string)
    requires forall i :: 0 <= i < |d| ==> IsDigit(d[i])
    requires tail != [] && !IsDigit(tail[0])
    ensures DigitCount(d + tail) == |d|
  {
    if d != [] {
      assert (d + tail)[1..] == d[1..] + tail;
      DigitCountPrefix(d[1..], tail);
    }
  }

  /** Reads an age label ("<m>m ago", "<h>h ago" or "<h>h <r>m ago") back as
      a number of minutes. */
  function ParseAge(s: string): Option<nat> {
    var k := DigitCount(s);
    if k == 0 then None else ParseUnit(DigitsValue(s[..k]), s[k..])
  }

  /** The part of an age label after its leading number `n`. */
  function ParseUnit(n: nat, rest: string): Option<nat> {
    if rest == "m ago" then Some(n)
    else if rest == "h ago" then Some(n * 60)
    else if |rest| >= 2 && rest[..2] == "h " then ParseRemainder(n, rest[2..])
    else None
  }

  /** The "<r>m ago" that follows "<h>h ". */
  function ParseRemainder(h: nat, t: string): Option<nat> {
    var k := DigitCount(t);
    if k > 0 && t[k..] == "m ago" then Some(h * 60 + DigitsValue(t[..k])) else None
  }

  /** A number followed by a non-digit tail is read back exactly. */
  lemma RenderedNumber(n: nat, tail: string)
    requires tail != [] && !IsDigit(tail[0])
    ensures var s := NatToString(n) + tail;
      DigitCount(s) == |NatToString(n)| &&
      DigitsValue(s[..DigitCount(s)]) == n &&
      s[DigitCount(s)..] == tail
  {
    var d := NatToString(n);
    DigitCountPrefix(d, tail);
    assert (d + tail)[..|d|] == d;
    NatToStringRoundTrip(n);
  }

  /** Each of the three label shapes is read back to its minutes. */
  lemma ParseMinutesLabel(m: nat)
    ensures ParseAge(NatToString(m) + "m ago") == Some(m)
  {
    RenderedNumber(m, "m ago");
  }

  lemma ParseHoursLabel(h: nat)
    ensures ParseAge(NatToString(h) + "h ago") == Some(h * 60)
  {
    RenderedNumber(h, "h ago");
  }

  lemma ParseRemainderLabel(h: nat, r: nat)
    ensures ParseRemainder(h, NatToString(r) + "m ago") == Some(h * 60 + r)
  {
    RenderedNumber(r, "m ago");
  }

  lemma ParseUnitLabel(h: nat, t: string)
    requires t != [] && IsDigit(t[0])
    ensures ParseUnit(h, "h " + t) == ParseRemainder(h, t)
  {
    var rest := "h " + t;
    assert rest[..2] == "h " && rest[2..] == t;
    assert rest[0] == 'h' && rest[2] == t[0];
  }

  lemma ParseHoursMinutesLabel(h: nat, r: nat)
    ensures ParseAge(NatToString(h) + ("h " + (NatToString(r) + "m ago"))) == Some(h * 60 + r)
  {
    var t := NatToString(r) + "m ago";
    assert t[0] == NatToString(r)[0];
    ParseRemainderLabel(h, r);
    ParseUnitLabel(h, t);
    RenderedNumber(h, "h " + t);
  }
}
