/** The countdown shown beside a mission: the time left until the expiry,
    formatted as zero-padded hours, minutes and seconds, or a label once the
    expiry has passed. Both timer components share this arithmetic and
    differ only in that label. */
module Countdown {
  import opened Wrappers

  /** `1000 * 60 * 60`, `1000 * 60` and `1000` in the source. */
  const HourMs := 3600000
  const MinuteMs := 60000
  const SecondMs := 1000

  /** Labels shown once the expiry has passed. */
  const ExpiredLabel := "EXPIRED"
  const ExpiredLabelJa := "期限切れ"

  datatype Clock = Clock(hours: nat, minutes: nat, seconds: nat)

  /** The three `Math.floor` fields of a positive difference in
      milliseconds: whole hours, then the minutes and seconds left over,
      which together account for the difference to within a second. */
  function Fields(difference: int): (c: Clock)
    requires difference > 0
    ensures c.minutes < 60 && c.seconds < 60
    ensures var shown := c.hours * HourMs + c.minutes * MinuteMs + c.seconds * SecondMs;
      shown <= difference < shown + SecondMs
  {
    var hours := difference / HourMs;
    var minutes := (difference % HourMs) / MinuteMs;
    var seconds := (difference % MinuteMs) / SecondMs;
    Clock(hours, minutes, seconds)
  }

  predicate IsDigit(c: char) {
    '0' <= c <= '9'
  }

  predicate AllDigits(s: string) {
    forall i :: 0 <= i < |s| ==> IsDigit(s[i])
  }

  function DigitChar(k: nat): (c: char)
    requires k < 10
    ensures IsDigit(c) && (c as int) - ('0' as int) == k
  {
    "0123456789"[k]
  }

  /** The decimal value of a string of digits. */
  function DigitsValue(s: string): nat
    requires AllDigits(s)
  {
    if s == [] then 0
    else DigitsValue(s[..|s| - 1]) * 10 + ((s[|s| - 1] as int) - ('0' as int))
  }

  /** `n.toString()` for a non-negative integer: decimal digits without
      leading zeros. */
  function NatToString(n: nat): (s: string)
    ensures |s| >= 1 && AllDigits(s)
    ensures s[0] == '0' ==> n == 0
    ensures n < 10 <==> |s| == 1
  {
    if n < 10 then [DigitChar(n)]
    else NatToString(n / 10) + [DigitChar(n % 10)]
  }

  /** `s.padStart(2, '0')`. */
  function PadStart2(s: string): (r: string)
    ensures |r| == if |s| < 2 then 2 else |s|
    ensures r[|r| - |s|..] == s
    ensures forall i :: 0 <= i < |r| - |s| ==> r[i] == '0'
  {
    if |s| >= 2 then s
    else if |s| == 1 then "0" + s
    else "00"
  }

  /** What `calculateTimeLeft` displays for `difference` milliseconds. */
  function TimeLeft(difference: int, expired: string): string {
    if difference <= 0 then expired
    else
      Display(Fields(difference))
  }

  /** The template string of the three padded fields. */
  function Display(c: Clock): string {
    PadStart2(NatToString(c.hours)) + ":" + PadStart2(NatToString(c.minutes)) + ":" + PadStart2(NatToString(c.seconds))
  }

  /** The English timer's `calculateTimeLeft`. */
  function TimeLeftEn(difference: int): string {
    TimeLeft(difference, ExpiredLabel)
  }

  /** The Japanese timer's `calculateTimeLeft`. */
  function TimeLeftJa(difference: int): string {
    TimeLeft(difference, ExpiredLabelJa)
  }

  /** Reads a display back: the hours before the second-to-last colon, two
      digits of minutes and two of seconds. */
  function ParseClock(s: string): Option<Clock> {
    var n := |s|;
    if n < 8 || s[n - 6] != ':' || s[n - 3] != ':' then None
    else if !AllDigits(s[..n - 6]) || !AllDigits(s[n - 5..n - 3]) || !AllDigits(s[n - 2..]) then None
    else Some(Clock(DigitsValue(s[..n - 6]), DigitsValue(s[n - 5..n - 3]), DigitsValue(s[n - 2..])))
  }

  /** The decimal form reads back as the number. */
  lemma {:induction false} DigitsRoundTrip(n: nat)
    ensures DigitsValue(NatToString(n)) == n
  {
    if n >= 10 {
      var s := NatToString(n);
      assert s[..|s| - 1] == NatToString(n / 10);
      DigitsRoundTrip(n / 10);
    }
  }

  /** A leading zero does not change the value. */
  lemma {:induction false} LeadingZero(s: string)
    requires AllDigits(s)
    ensures AllDigits("0" + s) && DigitsValue("0" + s) == DigitsValue(s)
  {
    if s != [] {
      assert ("0" + s)[..|"0" + s| - 1] == "0" + s[..|s| - 1];
      LeadingZero(s[..|s| - 1]);
    }
  }

  /** Padding a decimal form keeps its value, and leaves forms of two or
      more digits as they are. */
  lemma PadKeepsValue(n: nat)
    ensures AllDigits(PadStart2(NatToString(n)))
    ensures DigitsValue(PadStart2(NatToString(n))) == n
    ensures n >= 10 ==> PadStart2(NatToString(n)) == NatToString(n)
  {
    DigitsRoundTrip(n);
    var s := NatToString(n);
    if |s| == 1 {
      LeadingZero(s);
    }
  }

  /** Three digit strings joined by colons, the last two of two digits,
      read back as their values. */
  lemma ParseJoined(h: string, m: string, sec: string)
    requires AllDigits(h) && AllDigits(m) && AllDigits(sec)
    requires |h| >= 2 && |m| == 2 && |sec| == 2
    ensures ParseClock(h + ":" + m + ":" + sec) == Some(Clock(DigitsValue(h), DigitsValue(m), DigitsValue(sec)))
  {
    var hc := h + ":";
    var hm := hc + m;
    var hmc := hm + ":";
    var t := hmc + sec;
    assert t == h + ":" + m + ":" + sec;
    var n := |t|;
    assert n == |h| + 6;
    assert t[..n - 2] == hmc && t[n - 2..] == sec;
    assert hmc[..n - 3] == hm && hmc[n - 3] == ':';
    assert hm[..n - 5] == hc && hm[n - 5..] == m;
    assert hc[..n - 6] == h && hc[n - 6] == ':';
    assert t[..n - 6] == h;
    assert t[n - 5..n - 3] == m;
    assert AllDigits(t[..n - 6]) && AllDigits(t[n - 5..n - 3]) && AllDigits(t[n - 2..]);
    assert ParseClock(t) == Some(Clock(DigitsValue(h), DigitsValue(m), DigitsValue(sec)));
  }

  /** A clock whose minutes and seconds are below 60 reads back from its
      display. */
  lemma DisplayRoundTrip(c: Clock)
    requires c.minutes < 60 && c.seconds < 60
    ensures ParseClock(Display(c)) == Some(c)
  {
    PadKeepsValue(c.hours);
    PadKeepsValue(c.minutes);
    PadKeepsValue(c.seconds);
    ParseJoined(PadStart2(NatToString(c.hours)), PadStart2(NatToString(c.minutes)), PadStart2(NatToString(c.seconds)));
  }

  /** A positive difference displays as a clock that reads back as its
      fields; the expiry labels never read as a clock. */
  lemma FormatRoundTrip(difference: int, expired: string)
    requires difference > 0
    ensures ParseClock(TimeLeft(difference, expired)) == Some(Fields(difference))
    ensures ParseClock(ExpiredLabel) == None && ParseClock(ExpiredLabelJa) == None
  {
    DisplayRoundTrip(Fields(difference));
  }

  /** Each timer shows its label exactly when the difference is not
      positive, and a clock otherwise. */
  lemma ExpiryLabelIff(difference: int)
    ensures TimeLeftEn(difference) == "EXPIRED" <==> difference <= 0
    ensures TimeLeftJa(difference) == "期限切れ" <==> difference <= 0
    ensures difference > 0 ==> ParseClock(TimeLeftEn(difference)) == ParseClock(TimeLeftJa(difference)) == Some(Fields(difference))
  {
    if difference > 0 {
      FormatRoundTrip(difference, ExpiredLabel);
      FormatRoundTrip(difference, ExpiredLabelJa);
    }
  }

  /** Two positive differences with the same display fall in the same whole
      second. */
  lemma SameDisplaySameSecond(d1: int, d2: int, expired: string)
    requires d1 > 0 && d2 > 0
    requires TimeLeft(d1, expired) == TimeLeft(d2, expired)
    ensures d1 / SecondMs == d2 / SecondMs
  {
    FormatRoundTrip(d1, expired);
    FormatRoundTrip(d2, expired);
    var c := Fields(d1);
    var k := c.hours * 3600 + c.minutes * 60 + c.seconds;
    WithinSecond(d1, k);
    WithinSecond(d2, k);
  }

  lemma WithinSecond(d: int, k: nat)
    requires k * SecondMs <= d < k * SecondMs + SecondMs
    ensures d / SecondMs == k
  {
  }
}
