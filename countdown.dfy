/** The one-second countdown step and the `m:ss` display of the time left. */
module Countdown {
  import opened Wrappers

  /** The timer's `prev => ...` updater: the new time left, and whether it stops the conversation. */
  datatype TimerOutcome = TimerOutcome(next: int, stops: bool)

  function TimerStep(prev: int): (r: TimerOutcome)
    ensures r.stops <==> prev <= 1
    ensures r.stops ==> r.next == 0
    ensures !r.stops ==> r.next == prev - 1 && r.next >= 1
  {
    if prev <= 1 then TimerOutcome(0, true) else TimerOutcome(prev - 1, false)
  }

  predicate IsDigit(c: char) {
    '0' <= c <= '9'
  }

  predicate AllDigits(s: string) {
    forall i :: 0 <= i < |s| ==> IsDigit(s[i])
  }

  function DigitChar(d: nat): (c: char)
    requires d < 10
    ensures IsDigit(c)
  {
    (48 + d) as char
  }

  function DigitValue(c: char): (d: nat)
    requires IsDigit(c)
    ensures d < 10
  {
    c as int - 48
  }

  /** `String(n)` for a non-negative integer: its decimal digits, no leading zero. */
  function Decimal(n: nat): (s: string)
    ensures 1 <= |s| && AllDigits(s)
    ensures n < 10 <==> |s| == 1
  {
    if n < 10 then [DigitChar(n)] else Decimal(n / 10) + [DigitChar(n % 10)]
  }

  /** `String(n)` has no leading zero: its first digit is zero only for zero itself. */
  lemma {:induction false} DecimalNoLeadingZero(n: nat)
    ensures Decimal(n)[0] == '0' <==> n == 0
  {
    if n >= 10 {
      DecimalNoLeadingZero(n / 10);
    }
  }

  /** The number a string of decimal digits denotes. */
  function DecimalValue(s: string): nat
    requires AllDigits(s)
  {
    if s == [] then 0 else DecimalValue(s[..|s| - 1]) * 10 + DigitValue(s[|s| - 1])
  }

  /** Reading back a written number gives the number. */
  lemma {:induction false} DecimalRoundTrip(n: nat)
    ensures DecimalValue(Decimal(n)) == n
  {
    if n >= 10 {
      DecimalRoundTrip(n / 10);
      var s := Decimal(n);
      assert s[..|s| - 1] == Decimal(n / 10);
    }
  }

  /** `s.padStart(width, pad)`. */
  function PadStart(s: string, width: nat, pad: char): (r: string)
    ensures |r| == if |s| >= width then |s| else width
    ensures r[|r| - |s|..] == s
    ensures forall i :: 0 <= i < |r| - |s| ==> r[i] == pad
  {
    if |s| >= width then s else seq(width - |s|, _ => pad) + s
  }

  /** The header countdown: whole minutes, a colon, seconds padded to two digits. */
  function FormatClock(t: nat): (r: string)
    ensures |r| >= 4 && AllDigits(r[..|r| - 3]) && r[|r| - 3] == ':' && AllDigits(r[|r| - 2..])
    ensures t < 600 ==> |r| == 4
  {
    var minutes := Decimal(t / 60);
    var seconds := PadStart(Decimal(t % 60), 2, '0');
    PaddedSecondsValue(t % 60);
    var r := minutes + ":" + seconds;
    assert r[..|r| - 3] == minutes && r[|r| - 2..] == seconds;
    r
  }

  /** The inverse of the display: minutes before the colon, two digits of seconds after it. */
  function ParseClock(s: string): Option<nat> {
    if |s| < 4 || s[|s| - 3] != ':' then None
    else
      var minutes := s[..|s| - 3];
      var seconds := s[|s| - 2..];
      if AllDigits(minutes) && AllDigits(seconds) && DecimalValue(seconds) < 60
      then Some(DecimalValue(minutes) * 60 + DecimalValue(seconds))
      else None
  }

  /** Seconds under a minute, padded, read back as themselves. */
  lemma PaddedSecondsValue(r: nat)
    requires r < 60
    ensures var p := PadStart(Decimal(r), 2, '0');
            |p| == 2 && AllDigits(p) && DecimalValue(p) == r
  {
    var d := Decimal(r);
    var p := PadStart(d, 2, '0');
    DecimalRoundTrip(r);
    if r < 10 {
      assert d == [DigitChar(r)];
      assert p == ['0'] + d;
      assert p[..1] == ['0'];
    } else {
      assert r / 10 < 10;
      assert |d| == 2;
      assert p == d;
    }
  }

  /** Minutes, a colon and two digits of seconds parse as the time they denote. */
  lemma ParseJoined(minutes: string, seconds: string, mv: nat, sv: nat)
    requires 1 <= |minutes| && AllDigits(minutes) && DecimalValue(minutes) == mv
    requires |seconds| == 2 && AllDigits(seconds) && DecimalValue(seconds) == sv && sv < 60
    ensures ParseClock(minutes + ":" + seconds) == Some(mv * 60 + sv)
  {
    var s := minutes + ":" + seconds;
    assert s[..|s| - 3] == minutes;
    assert s[|s| - 2..] == seconds;
  }

  /** Whole minutes and seconds under a minute, written as the display writes them, read back. */
  lemma JoinedRoundTrip(mv: nat, sv: nat)
    requires sv < 60
    ensures ParseClock(Decimal(mv) + ":" + PadStart(Decimal(sv), 2, '0')) == Some(mv * 60 + sv)
  {
    PaddedSecondsValue(sv);
    DecimalRoundTrip(mv);
    ParseJoined(Decimal(mv), PadStart(Decimal(sv), 2, '0'), mv, sv);
  }

  /** The display is unambiguous: parsing it gives back the time it shows. */
  lemma FormatClockRoundTrip(t: nat)
    ensures ParseClock(FormatClock(t)) == Some(t)
  {
    JoinedRoundTrip(t / 60, t % 60);
    MinutesAndSeconds(t);
  }

  lemma MinutesAndSeconds(t: nat)
    ensures (t / 60) * 60 + t % 60 == t
  {
  }
}
