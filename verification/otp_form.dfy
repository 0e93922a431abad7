/** The OTP entry form (`src/components/OtpForm.tsx`): the input sanitiser, the
    submit guard, the five-minute countdown and its display, and the enable rules of
    the two buttons. */
module OtpForm {
  import opened Base
  import opened Strings

  /** The longest code the input keeps. */
  const MaxCodeLength: nat := 6
  /** The shortest code the form submits. */
  const MinCodeLength: nat := 4
  /** The countdown's start, in seconds. */
  const Start: nat := 300
  /** Resending is allowed once the countdown is at or below this value. */
  const ResendAfter: nat := 240

  /** `s.replace(/\D/g, '')`: the ASCII digits of `s`, in order. */
  function DigitsOf(s: string): (r: string)
    ensures AllDigits(r) && |r| <= |s|
    ensures forall c :: IsDigit(c) ==> multiset(r)[c] == multiset(s)[c]
  {
    if s == [] then []
    else
      assert s == [s[0]] + s[1..];
      (if IsDigit(s[0]) then [s[0]] else []) + DigitsOf(s[1..])
  }

  /** The filter works piecewise: the digits of a concatenation are the digits of
      each part in order, so no digit moves past another. */
  lemma {:induction false} DigitsOfAppend(a: string, b: string)
    ensures DigitsOf(a + b) == DigitsOf(a) + DigitsOf(b)
  {
    if a == [] {
      assert a + b == b;
    } else {
      assert (a + b)[0] == a[0] && (a + b)[1..] == a[1..] + b;
      DigitsOfAppend(a[1..], b);
    }
  }

  /** A string of digits loses nothing to the digit filter. */
  lemma {:induction false} DigitsOfDigits(s: string)
    requires AllDigits(s)
    ensures DigitsOf(s) == s
  {
    if s != [] {
      DigitsOfDigits(s[1..]);
    }
  }

  /** The `onChange` sanitiser: the digits of the input, cut to the first six. */
  function Sanitize(input: string): (code: string)
    ensures AllDigits(code) && |code| <= MaxCodeLength
    ensures |code| == if |DigitsOf(input)| < MaxCodeLength then |DigitsOf(input)| else MaxCodeLength
    ensures code == DigitsOf(input)[..|code|]
  {
    var d := DigitsOf(input);
    if |d| <= MaxCodeLength then d else d[..MaxCodeLength]
  }

  /** Sanitising twice is sanitising once, and a code the form could hold passes
      through unchanged. */
  lemma SanitizeIdempotent(input: string)
    ensures Sanitize(Sanitize(input)) == Sanitize(input)
  {
    SanitizeKeepsCodes(Sanitize(input));
  }

  lemma SanitizeKeepsCodes(code: string)
    requires AllDigits(code) && |code| <= MaxCodeLength
    ensures Sanitize(code) == code
  {
    DigitsOfDigits(code);
  }

  /** `handleSubmit`: the code is handed on only when it has at least four digits;
      the countdown is not consulted. */
  predicate SubmitsCode(code: string) {
    |code| >= MinCodeLength
  }

  /** The submit button is disabled for a short code, while loading, or once the
      countdown has reached zero. */
  predicate SubmitDisabled(code: string, loading: bool, timeLeft: nat) {
    |code| < MinCodeLength || loading || timeLeft == 0
  }

  /** The button and the form guard agree except at the end of the countdown and
      while loading, where only the button refuses. */
  lemma GuardIgnoresTimer(code: string, loading: bool, timeLeft: nat)
    ensures !SubmitDisabled(code, loading, timeLeft) ==> SubmitsCode(code)
    ensures SubmitsCode(code) && !loading && timeLeft > 0 ==> !SubmitDisabled(code, loading, timeLeft)
    ensures SubmitsCode("1234") && SubmitDisabled("1234", false, 0)
  {
  }

  /** One second of the countdown: down by one, never below zero. */
  function Tick(timeLeft: nat): (t: nat)
    ensures timeLeft > 0 ==> t == timeLeft - 1
    ensures timeLeft == 0 ==> t == 0
  {
    if timeLeft > 0 then timeLeft - 1 else 0
  }

  /** `n` seconds of the countdown. */
  function Ticks(timeLeft: nat, n: nat): nat
    decreases n
  {
    if n == 0 then timeLeft else Ticks(Tick(timeLeft), n - 1)
  }

  /** After `n` seconds the countdown shows `timeLeft - n`, or zero once that is spent. */
  lemma {:induction false} TicksSaturate(timeLeft: nat, n: nat)
    ensures Ticks(timeLeft, n) == if n <= timeLeft then timeLeft - n else 0
    decreases n
  {
    if n > 0 {
      TicksSaturate(Tick(timeLeft), n - 1);
    }
  }

  /** The resend link is disabled during the first minute of a countdown. */
  predicate ResendDisabled(timeLeft: nat) {
    timeLeft > ResendAfter
  }

  /** Resending restarts the countdown, which disables the link again for a minute. */
  function Resend(timeLeft: nat): (t: nat)
    requires !ResendDisabled(timeLeft)
    ensures t == Start && ResendDisabled(t)
  {
    Start
  }

  /** The resend link opens after exactly 60 seconds of a fresh countdown. */
  lemma ResendOpensAfterAMinute(n: nat)
    ensures ResendDisabled(Ticks(Start, n)) <==> n < Start - ResendAfter
  {
    TicksSaturate(Start, n);
  }

  /** `padStart(2, '0')` on a number's decimal form. */
  function Pad2(n: nat): (s: string)
    ensures AllDigits(s) && |s| >= 2
    ensures n < 100 ==> |s| == 2
  {
    if n < 10 then "0" + NatToString(n) else NatToString(n)
  }

  /** `formatTime(seconds)`: whole minutes, a colon, and the seconds on two digits. */
  function FormatTime(seconds: nat): (t: string)
    ensures |t| >= 4
  {
    NatToString(seconds / 60) + ":" + Pad2(seconds % 60)
  }

  /** Reads a `m:ss` display back: digits, a colon, then exactly two digits below 60. */
  function ParseTime(t: string): (r: Option<nat>)
  {
    var i := Find(t, ":", 0);
    if i < 0 then None
    else
      var mins := t[..i];
      var secs := t[i + 1..];
      if |mins| > 0 && AllDigits(mins) && |secs| == 2 && AllDigits(secs) && DigitsValue(secs) < 60 then
        Some(DigitsValue(mins) * 60 + DigitsValue(secs))
      else None
  }

  lemma Pad2Value(n: nat)
    requires n < 60
    ensures DigitsValue(Pad2(n)) == n
  {
    NatToStringValue(n);
    if n < 10 {
      var s := Pad2(n);
      assert s[..1] == "0";
    }
  }

  /** The first colon of `digits:rest` follows the digits. */
  lemma ColonAfterDigits(m: string, p: string)
    requires AllDigits(m)
    ensures Find(m + ":" + p, ":", 0) == |m|
  {
    var t := m + ":" + p;
    assert OccursAt(t, ":", |m|) by {
      assert t[|m|..|m| + 1] == ":";
    }
    forall i | 0 <= i < |m|
      ensures !OccursAt(t, ":", i)
    {
      assert t[i..i + 1] == [m[i]];
    }
  }

  /** The display reads back as the number of seconds it shows, so two different
      times never look alike. */
  lemma FormatTimeRoundTrip(seconds: nat)
    ensures ParseTime(FormatTime(seconds)) == Some(seconds)
  {
    var m := NatToString(seconds / 60);
    var p := Pad2(seconds % 60);
    var t := FormatTime(seconds);
    ColonAfterDigits(m, p);
    assert t[..|m|] == m;
    assert t[|m| + 1..] == p;
    NatToStringValue(seconds / 60);
    Pad2Value(seconds % 60);
  }

  lemma FormatTimeInjective(a: nat, b: nat)
    ensures FormatTime(a) == FormatTime(b) ==> a == b
  {
    FormatTimeRoundTrip(a);
    FormatTimeRoundTrip(b);
  }

  lemma FormatTimeExamples()
    ensures FormatTime(300) == "5:00" && FormatTime(65) == "1:05" && FormatTime(0) == "0:00"
  {
  }
}
