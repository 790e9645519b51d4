/** The elapsed-time display of the `VoiceRecorder` component: `formatTime`
    renders whole seconds as `M:SS`, and the progress bar shows how far the
    current minute has run. The recording counter starts at 0 and only grows,
    so seconds are natural numbers. */
module TimeFormat {
  import opened Wrappers

  predicate IsDigit(c: char) {
    '0' <= c <= '9'
  }

  predicate AllDigits(s: string) {
    forall i :: 0 <= i < |s| ==> IsDigit(s[i])
  }

  function DigitChar(d: nat): (c: char)
    requires d < 10
    ensures IsDigit(c)
  {
    ('0' as int + d) as char
  }

  function DigitValue(c: char): nat
    requires IsDigit(c)
  {
    c as int - '0' as int
  }

  /** `n.toString()`: decimal digits, most significant first, no leading zero. */
  function NatToString(n: nat): (s: string)
    ensures |s| >= 1 && AllDigits(s)
    ensures |s| > 1 ==> s[0] != '0'
    ensures n < 10 <==> |s| == 1
  {
    if n < 10 then [DigitChar(n)] else NatToString(n / 10) + [DigitChar(n % 10)]
  }

  /** The number a string of decimal digits denotes. */
  function ParseNat(s: string): nat
    requires AllDigits(s)
  {
    if s == [] then 0 else ParseNat(s[..|s| - 1]) * 10 + DigitValue(s[|s| - 1])
  }

  lemma {:induction false} ParseNatToString(n: nat)
    ensures ParseNat(NatToString(n)) == n
  {
    if n >= 10 {
      var s := NatToString(n);
      assert s[..|s| - 1] == NatToString(n / 10);
      ParseNatToString(n / 10);
    }
  }

  /** `s.padStart(2, '0')`. */
  function PadStart2(s: string): string {
    if |s| >= 2 then s else if |s| == 1 then ['0'] + s else "00"
  }

  /** `formatTime`: the minutes `seconds / 60` in decimal, a colon, then the
      seconds of the current minute, `seconds % 60`, as exactly two digits,
      the first being '0' exactly when they are fewer than ten. */
  function FormatTime(seconds: nat): (r: string)
    ensures |r| == |NatToString(seconds / 60)| + 3
    ensures r[..|r| - 3] == NatToString(seconds / 60)
    ensures r[|r| - 3] == ':'
    ensures forall i :: 0 <= i < |r| && i != |r| - 3 ==> IsDigit(r[i])
    ensures DigitValue(r[|r| - 2]) * 10 + DigitValue(r[|r| - 1]) == seconds % 60
    ensures r[|r| - 2] == '0' <==> seconds % 60 < 10
  {
    var secs := seconds % 60;
    assert secs >= 10 ==> NatToString(secs) == [DigitChar(secs / 10), DigitChar(secs % 10)];
    NatToString(seconds / 60) + ":" + PadStart2(NatToString(secs))
  }

  /** Reads `M:SS` back as a number of seconds. */
  function ParseTime(s: string): Option<nat> {
    if |s| >= 4 && s[|s| - 3] == ':' && AllDigits(s[..|s| - 3]) && IsDigit(s[|s| - 2]) && IsDigit(s[|s| - 1])
    then Some(ParseNat(s[..|s| - 3]) * 60 + DigitValue(s[|s| - 2]) * 10 + DigitValue(s[|s| - 1]))
    else None
  }

  /** The minutes field denotes `seconds / 60` and the two-digit field
      `seconds % 60`, so reading the text back gives `seconds`. */
  lemma {:induction false} FormatTimeRoundTrip(seconds: nat)
    ensures ParseTime(FormatTime(seconds)) == Some(seconds)
  {
    ParseNatToString(seconds / 60);
  }

  /** Different second counts never display alike. */
  lemma FormatTimeInjective(a: nat, b: nat)
    requires FormatTime(a) == FormatTime(b)
    ensures a == b
  {
    FormatTimeRoundTrip(a);
    FormatTimeRoundTrip(b);
  }

  lemma FormatTimeZero()
    ensures FormatTime(0) == "0:00"
  {
  }

  /** `recordingTime % 60 * (100/60)`, over the reals: the share of the
      current minute elapsed, as a percentage in [0, 100). */
  function ProgressValue(recordingTime: nat): (percent: real)
    ensures 0.0 <= percent < 100.0
  {
    (recordingTime % 60) as real * (100.0 / 60.0)
  }

  /** The bar restarts every minute. */
  lemma ProgressPeriodic(recordingTime: nat)
    ensures ProgressValue(recordingTime + 60) == ProgressValue(recordingTime)
  {
  }
}
