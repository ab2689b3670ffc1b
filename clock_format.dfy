/** `formatTime`: seconds as zero-padded `mm:ss`, and reading such a text
    back. */
module ClockFormat {

  predicate IsDigit(c: char)
  {
    '0' <= c <= '9'
  }

  function DigitChar(d: nat): (c: char)
    requires d < 10
    ensures IsDigit(c)
  {
    (('0' as int) + d) as char
  }

  function DigitValue(c: char): (d: nat)
    requires IsDigit(c)
    ensures d < 10 && DigitChar(d) == c
  {
    (c as int) - ('0' as int)
  }

  /** `n.toString()` for a non-negative integer: decimal digits, no sign,
      no leading zero. */
  function NatToString(n: nat): (s: string)
    ensures |s| >= 1
    ensures forall i :: 0 <= i < |s| ==> IsDigit(s[i])
    ensures n < 10 <==> |s| == 1
    ensures 10 <= n < 100 ==> |s| == 2
    ensures |s| > 1 ==> s[0] != '0'
  {
    if n < 10 then [DigitChar(n)] else NatToString(n / 10) + [DigitChar(n % 10)]
  }

  /** The value of a run of decimal digits, most significant first. */
  function ParseDigits(s: string): nat
    requires forall i :: 0 <= i < |s| ==> IsDigit(s[i])
  {
    if s == [] then 0 else ParseDigits(s[..|s| - 1]) * 10 + DigitValue(s[|s| - 1])
  }

  /** Reading back the decimal text of a number gives the number. */
  lemma {:induction false} ParseNatToString(n: nat)
    ensures ParseDigits(NatToString(n)) == n
  {
    if n >= 10 {
      var s := NatToString(n);
      assert s[..|s| - 1] == NatToString(n / 10);
      ParseNatToString(n / 10);
    }
  }

  /** A leading zero does not change the value. */
  lemma {:induction false} ParseLeadingZero(s: string)
    requires forall i :: 0 <= i < |s| ==> IsDigit(s[i])
    ensures ParseDigits(['0'] + s) == ParseDigits(s)
  {
    if s != [] {
      assert (['0'] + s)[..|s|] == ['0'] + s[..|s| - 1];
      ParseLeadingZero(s[..|s| - 1]);
    }
  }

  /** `s.padStart(2, '0')` */
  function PadStart2(s: string): (r: string)
    ensures |r| == if |s| >= 2 then |s| else 2
    ensures r[|r| - |s|..] == s
    ensures forall i :: 0 <= i < |r| - |s| ==> r[i] == '0'
    ensures (forall i :: 0 <= i < |s| ==> IsDigit(s[i])) ==> forall i :: 0 <= i < |r| ==> IsDigit(r[i])
  {
    if |s| >= 2 then s else if |s| == 1 then ['0'] + s else "00"
  }

  /** Padding keeps the value. */
  lemma PadKeepsValue(n: nat)
    ensures var p := PadStart2(NatToString(n));
      (forall i :: 0 <= i < |p| ==> IsDigit(p[i])) && ParseDigits(p) == n
  {
    var s := NatToString(n);
    ParseNatToString(n);
    if |s| < 2 {
      assert PadStart2(s) == ['0'] + s;
      ParseLeadingZero(s);
    }
  }

  /** `n.toString().padStart(2, '0')`: at least two digits, exactly two
      below 100, reading back as `n`. */
  function Field(n: nat): (f: string)
    ensures |f| >= 2 && (n < 100 ==> |f| == 2)
    ensures forall i :: 0 <= i < |f| ==> IsDigit(f[i])
    ensures ParseDigits(f) == n
  {
    PadKeepsValue(n);
    PadStart2(NatToString(n))
  }

  /** `mins:secs` with both parts padded to two digits, where minutes are
      `floor(seconds / 60)` and seconds the remainder. */
  function FormatTime(seconds: nat): (text: string)
    ensures |text| >= 5 && text[|text| - 3] == ':'
    ensures IsClockText(text)
    ensures seconds < 6000 ==> |text| == 5 && text[2] == ':'
  {
    var minutes, secs := seconds / 60, seconds % 60;
    SplitMinutes(seconds);
    JoinClockText(Field(minutes), Field(secs));
    Field(minutes) + ":" + Field(secs)
  }

  lemma SplitMinutes(seconds: nat)
    ensures seconds == (seconds / 60) * 60 + seconds % 60
    ensures seconds % 60 < 60
    ensures seconds < 6000 ==> seconds / 60 < 100
  {
  }

  /** A text shaped like `formatTime`'s output: digits, with a colon
      three characters from the end. */
  predicate IsClockText(text: string)
  {
    |text| >= 3 && forall i :: 0 <= i < |text| && i != |text| - 3 ==> IsDigit(text[i])
  }

  /** The digits before the colon. */
  function MinutesField(text: string): nat
    requires IsClockText(text)
  {
    ParseDigits(text[..|text| - 3])
  }

  /** The two digits after the colon. */
  function SecondsField(text: string): nat
    requires IsClockText(text)
  {
    ParseDigits(text[|text| - 2..])
  }

  /** Reads `m...m:ss` back into seconds. */
  function ParseClock(text: string): nat
    requires IsClockText(text)
  {
    MinutesField(text) * 60 + SecondsField(text)
  }

  /** Minutes, a colon and two second digits make a clock text whose
      fields are the two parts. */
  lemma JoinClockText(m: string, s: string)
    requires |m| >= 2 && |s| == 2
    requires forall i :: 0 <= i < |m| ==> IsDigit(m[i])
    requires forall i :: 0 <= i < |s| ==> IsDigit(s[i])
    ensures var text := m + ":" + s;
      && |text| == |m| + 3 && text[|m|] == ':'
      && IsClockText(text)
      && MinutesField(text) == ParseDigits(m)
      && SecondsField(text) == ParseDigits(s)
  {
    var text := m + ":" + s;
    forall i | 0 <= i < |text| && i != |text| - 3
      ensures IsDigit(text[i])
    {
      if i < |m| {
        assert text[i] == m[i];
      } else {
        assert text[i] == s[i - |m| - 1];
      }
    }
    assert text[..|text| - 3] == m;
    assert text[|text| - 2..] == s;
  }

  /** The text always reads back as the number of seconds formatted: the
      minutes field holds the whole minutes and the seconds field, always
      below 60, the rest. */
  lemma FormatTimeRoundTrip(seconds: nat)
    ensures var text := FormatTime(seconds);
      && MinutesField(text) == seconds / 60
      && SecondsField(text) == seconds % 60 < 60
      && ParseClock(text) == seconds
  {
    var minutes, secs := seconds / 60, seconds % 60;
    SplitMinutes(seconds);
    JoinClockText(Field(minutes), Field(secs));
    assert FormatTime(seconds) == Field(minutes) + ":" + Field(secs);
  }
}
