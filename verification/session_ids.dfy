/**
 * Session identifiers: the handler names a session `session-${Date.now()}`
 * (electron/main.ts:95), the prefix followed by the decimal rendering of the
 * clock in milliseconds. The clock is a parameter. Two sessions created in the
 * same millisecond get the same id; distinct clock values never do.
 */
module SessionIds {
  const Prefix: string := "session-"

  predicate IsDigit(c: char) {
    '0' <= c <= '9'
  }

  predicate AllDigits(s: string) {
    forall i :: 0 <= i < |s| ==> IsDigit(s[i])
  }

  function DigitChar(d: nat): (c: char)
    requires d < 10
    ensures IsDigit(c) && c as int - '0' as int == d
  {
    ('0' as int + d) as char
  }

  /** How JavaScript renders a non-negative integer: its decimal digits, most significant first. */
  function DecimalString(n: nat): (s: string)
    ensures |s| > 0 && AllDigits(s)
    ensures n < 10 <==> |s| == 1
    ensures n >= 10 ==> s[0] != '0'
  {
    if n < 10 then [DigitChar(n)] else DecimalString(n / 10) + [DigitChar(n % 10)]
  }

  /** The number a string of decimal digits denotes. */
  function DigitsValue(s: string): nat
    requires AllDigits(s)
  {
    if s == [] then 0 else DigitsValue(s[..|s| - 1]) * 10 + (s[|s| - 1] as int - '0' as int)
  }

  /** Reading back the rendered digits gives the number: rendering loses nothing. */
  lemma {:induction false} DecimalRoundTrip(n: nat)
    ensures DigitsValue(DecimalString(n)) == n
  {
    var s := DecimalString(n);
    if n >= 10 {
      assert s[..|s| - 1] == DecimalString(n / 10);
      DecimalRoundTrip(n / 10);
    }
  }

  /** `session-${clock}`. */
  function SessionId(clock: nat): (id: string)
    ensures |id| > |Prefix| && id[..|Prefix|] == Prefix
    ensures AllDigits(id[|Prefix|..])
  {
    Prefix + DecimalString(clock)
  }

  predicate IsSessionId(id: string) {
    |id| > |Prefix| && id[..|Prefix|] == Prefix && AllDigits(id[|Prefix|..])
  }

  /** The clock value an id was made from. */
  function ClockOf(id: string): nat
    requires IsSessionId(id)
  {
    DigitsValue(id[|Prefix|..])
  }

  lemma SessionIdRoundTrip(clock: nat)
    ensures IsSessionId(SessionId(clock)) && ClockOf(SessionId(clock)) == clock
  {
    assert SessionId(clock)[|Prefix|..] == DecimalString(clock);
    DecimalRoundTrip(clock);
  }

  /** Ids collide exactly when the clock values are equal. */
  lemma SessionIdInjective(a: nat, b: nat)
    ensures SessionId(a) == SessionId(b) <==> a == b
  {
    SessionIdRoundTrip(a);
    SessionIdRoundTrip(b);
  }
}
