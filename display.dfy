/**
 * The digits shown by the timer display: minutes and seconds of a whole
 * number of seconds, each written in decimal and left-padded with '0' to at
 * least two characters; and the choice of colour classes for them.
 */
module Display {

  predicate IsDigit(c: char)
  {
    '0' <= c <= '9'
  }

  predicate AllDigits(s: string)
  {
    forall i :: 0 <= i < |s| ==> IsDigit(s[i])
  }

  function DigitValue(c: char): (v: nat)
    requires IsDigit(c)
    ensures v < 10
  {
    c as int - '0' as int
  }

  function DigitChar(v: nat): (c: char)
    requires v < 10
    ensures IsDigit(c) && DigitValue(c) == v
  {
    ('0' as int + v) as char
  }

  /** `n.toString()` for a non-negative integer: decimal, no leading zeros. */
  function NatToString(n: nat): (s: string)
    ensures |s| >= 1 && AllDigits(s)
    ensures |s| > 1 ==> s[0] != '0'
    decreases n
  {
    if n < 10 then [DigitChar(n)] else NatToString(n / 10) + [DigitChar(n % 10)]
  }

  /** The number of decimal digits of `n`, defined by repeated division. */
  function DigitCount(n: nat): (k: nat)
    ensures k >= 1
    decreases n
  {
    if n < 10 then 1 else 1 + DigitCount(n / 10)
  }

  /** The value of a decimal digit string (the empty string is zero). */
  function ParseDecimal(s: string): nat
    requires AllDigits(s)
    decreases |s|
  {
    if s == [] then 0 else 10 * ParseDecimal(s[..|s| - 1]) + DigitValue(s[|s| - 1])
  }

  function Zeros(k: nat): (z: string)
    ensures |z| == k && AllDigits(z)
  {
    seq(k, _ => '0')
  }

  /** `s.padStart(width, '0')`: never truncates, pads only when shorter. */
  function PadStart(s: string, width: nat): (r: string)
    ensures |r| == if |s| >= width then |s| else width
    ensures r[|r| - |s|..] == s
    ensures forall i :: 0 <= i < |r| - |s| ==> r[i] == '0'
  {
    if |s| >= width then s else Zeros(width - |s|) + s
  }

  /** Whole minutes and leftover seconds. */
  datatype Split = Split(mins: nat, secs: nat)

  function SplitSeconds(total: nat): (r: Split)
    ensures r.mins * 60 + r.secs == total
    ensures r.secs < 60
  {
    Split(total / 60, total % 60)
  }

  /** The two strings on the display. */
  datatype Clock = Clock(minutes: string, seconds: string)

  /** `formatTime`. Its input is the timer's count, which never goes below
      zero (`Timer.NeverActiveAndAlarming`). */
  function FormatTime(total: nat): Clock
  {
    var sp := SplitSeconds(total);
    Clock(PadStart(NatToString(sp.mins), 2), PadStart(NatToString(sp.secs), 2))
  }

  lemma {:induction false} NatToStringRoundTrip(n: nat)
    ensures ParseDecimal(NatToString(n)) == n
    ensures |NatToString(n)| == DigitCount(n)
    decreases n
  {
    if n >= 10 {
      NatToStringRoundTrip(n / 10);
      var s := NatToString(n);
      assert s[..|s| - 1] == NatToString(n / 10);
    }
  }

  lemma {:induction false} ZerosParseToZero(k: nat)
    ensures ParseDecimal(Zeros(k)) == 0
    decreases k
  {
    if k > 0 {
      assert Zeros(k)[..k - 1] == Zeros(k - 1);
      ZerosParseToZero(k - 1);
    }
  }

  /** Leading zeros do not change the value. */
  lemma {:induction false} LeadingZerosIgnored(k: nat, s: string)
    requires AllDigits(s)
    ensures AllDigits(Zeros(k) + s)
    ensures ParseDecimal(Zeros(k) + s) == ParseDecimal(s)
    decreases |s|
  {
    var t := Zeros(k) + s;
    assert AllDigits(t) by {
      forall i | 0 <= i < |t| ensures IsDigit(t[i]) {
        if i < k { assert t[i] == Zeros(k)[i]; } else { assert t[i] == s[i - k]; }
      }
    }
    if s == [] {
      assert t == Zeros(k);
      ZerosParseToZero(k);
    } else {
      var init := s[..|s| - 1];
      assert AllDigits(init) by {
        forall i | 0 <= i < |init| ensures IsDigit(init[i]) { assert init[i] == s[i]; }
      }
      assert t[..|t| - 1] == Zeros(k) + init;
      assert t[|t| - 1] == s[|s| - 1];
      LeadingZerosIgnored(k, init);
    }
  }

  /** Padding with zeros keeps the value of a digit string. */
  lemma PadStartKeepsValue(s: string, width: nat)
    requires AllDigits(s)
    ensures AllDigits(PadStart(s, width))
    ensures ParseDecimal(PadStart(s, width)) == ParseDecimal(s)
  {
    if |s| < width {
      LeadingZerosIgnored(width - |s|, s);
    }
  }

  lemma TwoDigitsAtMost(n: nat)
    requires n < 100
    ensures DigitCount(n) <= 2
  {
  }

  /** The seconds string is exactly two digits; the minutes string is all
      digits, at least two of them, and never truncated. */
  lemma FormatTimeShape(total: nat)
    ensures |FormatTime(total).seconds| == 2
    ensures AllDigits(FormatTime(total).seconds) && AllDigits(FormatTime(total).minutes)
    ensures |FormatTime(total).minutes| == if DigitCount(total / 60) >= 2 then DigitCount(total / 60) else 2
  {
    var sp := SplitSeconds(total);
    NatToStringRoundTrip(sp.mins);
    NatToStringRoundTrip(sp.secs);
    TwoDigitsAtMost(sp.secs);
    PadStartKeepsValue(NatToString(sp.mins), 2);
    PadStartKeepsValue(NatToString(sp.secs), 2);
  }

  /** Reading both strings back as decimal numbers recovers the count. */
  lemma FormatTimeRoundTrip(total: nat)
    ensures AllDigits(FormatTime(total).minutes) && AllDigits(FormatTime(total).seconds)
    ensures ParseDecimal(FormatTime(total).minutes) * 60 + ParseDecimal(FormatTime(total).seconds) == total
    ensures ParseDecimal(FormatTime(total).seconds) < 60
  {
    var sp := SplitSeconds(total);
    NatToStringRoundTrip(sp.mins);
    NatToStringRoundTrip(sp.secs);
    PadStartKeepsValue(NatToString(sp.mins), 2);
    PadStartKeepsValue(NatToString(sp.secs), 2);
  }

  /** Which look the digits take: alarming wins over counting down. */
  datatype Emphasis = Alarming | Counting | Resting

  function SelectEmphasis(isActive: bool, isAlarming: bool): (e: Emphasis)
    ensures e == Alarming <==> isAlarming
    ensures e == Counting <==> isActive && !isAlarming
    ensures e == Resting <==> !isActive && !isAlarming
  {
    if isAlarming then Alarming else if isActive then Counting else Resting
  }

  /** `getTextColor`: the classes of the minutes digits. */
  function TextColor(isActive: bool, isAlarming: bool): string
  {
    match SelectEmphasis(isActive, isAlarming)
    case Alarming => "text-white animate-pulse"
    case Counting => "text-orange-500"
    case Resting => "text-zinc-200"
  }

  /** `getSecColor`: the classes of the seconds digits. */
  function SecColor(isActive: bool, isAlarming: bool): string
  {
    match SelectEmphasis(isActive, isAlarming)
    case Alarming => "text-white/80 animate-pulse"
    case Counting => "text-orange-400"
    case Resting => "text-zinc-400"
  }

  /** Both selectors depend on the flags only through the emphasis, and tell
      the three emphases apart: the alarm look whenever alarming, whatever
      `isActive` says. */
  lemma ColoursFollowEmphasis(a1: bool, al1: bool, a2: bool, al2: bool)
    ensures TextColor(a1, al1) == TextColor(a2, al2) <==> SelectEmphasis(a1, al1) == SelectEmphasis(a2, al2)
    ensures SecColor(a1, al1) == SecColor(a2, al2) <==> SelectEmphasis(a1, al1) == SelectEmphasis(a2, al2)
    ensures al1 ==> TextColor(a1, al1) == TextColor(!a1, al1) && SecColor(a1, al1) == SecColor(!a1, al1)
  {
  }
}
