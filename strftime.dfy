/**
 * The part of `datetime` that the storage key uses: a wall-clock reading with
 * second resolution and its rendering by `strftime("%Y%m%d_%H%M%S")`, every
 * field zero-padded to a fixed width, together with the inverse parse.
 */
module Strftime {
  import opened Wrappers

  /** A wall-clock reading, as `datetime.now()` returns it (the microseconds are never rendered). */
  datatype DateTime = DateTime(year: int, month: int, day: int, hour: int, minute: int, second: int)

  predicate IsLeapYear(y: int) {
    y % 4 == 0 && (y % 100 != 0 || y % 400 == 0)
  }

  function DaysInMonth(y: int, m: int): (n: int)
    requires 1 <= m <= 12
    ensures 28 <= n <= 31
    ensures m == 2 ==> (n == 29 <==> IsLeapYear(y))
  {
    if m == 2 then (if IsLeapYear(y) then 29 else 28)
    else if m == 4 || m == 6 || m == 9 || m == 11 then 30
    else 31
  }

  /**
   * A reading `datetime` can hold, restricted to four-digit years: `%Y` is
   * rendered without padding below year 1000 on some platforms.
   */
  predicate ValidDateTime(t: DateTime) {
    1000 <= t.year <= 9999 &&
    1 <= t.month <= 12 &&
    1 <= t.day <= DaysInMonth(t.year, t.month) &&
    0 <= t.hour < 24 &&
    0 <= t.minute < 60 &&
    0 <= t.second < 60
  }

  predicate IsDigit(c: char) {
    '0' <= c <= '9'
  }

  predicate AllDigits(s: string) {
    forall i | 0 <= i < |s| :: IsDigit(s[i])
  }

  function DigitChar(d: nat): (c: char)
    requires d < 10
    ensures IsDigit(c)
  {
    ('0' as int + d) as char
  }

  function DigitValue(c: char): (d: nat)
    requires IsDigit(c)
    ensures d < 10 && DigitChar(d) == c
  {
    c as int - '0' as int
  }

  function Pow10(w: nat): (p: nat)
    ensures p >= 1
  {
    if w == 0 then 1 else 10 * Pow10(w - 1)
  }

  /** `n` in decimal, zero-padded on the left to exactly `w` digits. */
  function PadDigits(n: nat, w: nat): (s: string)
    requires n < Pow10(w)
    ensures |s| == w && AllDigits(s)
  {
    if w == 0 then []
    else
      assert n / 10 < Pow10(w - 1);
      PadDigits(n / 10, w - 1) + [DigitChar(n % 10)]
  }

  /** The number a string of decimal digits denotes. */
  function ParseDigits(s: string): (n: nat)
    requires AllDigits(s)
    ensures n < Pow10(|s|)
  {
    if s == [] then 0
    else 10 * ParseDigits(s[..|s| - 1]) + DigitValue(s[|s| - 1])
  }

  lemma {:induction false} ParsePadDigits(n: nat, w: nat)
    requires n < Pow10(w)
    ensures ParseDigits(PadDigits(n, w)) == n
  {
    if w > 0 {
      var s := PadDigits(n, w);
      assert n / 10 < Pow10(w - 1);
      assert s[..|s| - 1] == PadDigits(n / 10, w - 1);
      assert s[|s| - 1] == DigitChar(n % 10);
      ParsePadDigits(n / 10, w - 1);
    }
  }

  lemma {:induction false} PadParseDigits(s: string)
    requires AllDigits(s)
    ensures PadDigits(ParseDigits(s), |s|) == s
  {
    if s != [] {
      var init, d := s[..|s| - 1], DigitValue(s[|s| - 1]);
      var m := ParseDigits(init);
      var n := ParseDigits(s);
      assert n == 10 * m + d;
      assert n / 10 == m && n % 10 == d;
      PadParseDigits(init);
      assert s == init + [s[|s| - 1]];
    }
  }

  /** `strftime("%Y%m%d_%H%M%S")`. */
  function FormatStamp(t: DateTime): (ts: string)
    requires ValidDateTime(t)
    ensures |ts| == 15 && ts[8] == '_'
    ensures AllDigits(ts[..8]) && AllDigits(ts[9..])
  {
    PadDigits(t.year, 4) + PadDigits(t.month, 2) + PadDigits(t.day, 2) + "_" +
    PadDigits(t.hour, 2) + PadDigits(t.minute, 2) + PadDigits(t.second, 2)
  }

  /** The reading a `%Y%m%d_%H%M%S` string denotes, if it is well formed and a valid reading. */
  function ParseStamp(ts: string): (r: Option<DateTime>)
    ensures r.Some? ==> ValidDateTime(r.value)
  {
    if |ts| == 15 && ts[8] == '_' && AllDigits(ts[..8]) && AllDigits(ts[9..]) then
      var date, time := ts[..8], ts[9..];
      AllDigitsFields(date, 4, 2);
      AllDigitsFields(time, 2, 2);
      var t := DateTime(ParseDigits(date[..4]), ParseDigits(date[4..6]), ParseDigits(date[6..]),
                        ParseDigits(time[..2]), ParseDigits(time[2..4]), ParseDigits(time[4..]));
      if ValidDateTime(t) then Some(t) else None
    else None
  }

  lemma AllDigitsSlice(s: string, i: nat, j: nat)
    requires AllDigits(s) && i <= j <= |s|
    ensures AllDigits(s[i..j])
  {
  }

  /** The three consecutive fields of widths `w1`, `w2` and the rest of an all-digit string are all digits. */
  lemma AllDigitsFields(s: string, w1: nat, w2: nat)
    requires AllDigits(s) && w1 + w2 <= |s|
    ensures AllDigits(s[..w1]) && AllDigits(s[w1..w1 + w2]) && AllDigits(s[w1 + w2..])
  {
    AllDigitsSlice(s, 0, w1);
    AllDigitsSlice(s, w1, w1 + w2);
    AllDigitsSlice(s, w1 + w2, |s|);
    assert s[..w1] == s[0..w1] && s[w1 + w2..] == s[w1 + w2..|s|];
  }

  /** Re-rendering the three parsed fields of an all-digit string at their widths gives back the string. */
  lemma PadParseFields(s: string, w1: nat, w2: nat)
    requires AllDigits(s) && w1 + w2 <= |s|
    ensures AllDigits(s[..w1]) && AllDigits(s[w1..w1 + w2]) && AllDigits(s[w1 + w2..])
    ensures PadDigits(ParseDigits(s[..w1]), w1) + PadDigits(ParseDigits(s[w1..w1 + w2]), w2) +
            PadDigits(ParseDigits(s[w1 + w2..]), |s| - (w1 + w2)) == s
  {
    AllDigitsFields(s, w1, w2);
    PadParseDigits(s[..w1]);
    PadParseDigits(s[w1..w1 + w2]);
    PadParseDigits(s[w1 + w2..]);
    assert s == s[..w1] + s[w1..w1 + w2] + s[w1 + w2..];
  }

  /** Every valid reading is recovered from its rendering, so the rendering is injective. */
  lemma ParseFormatStamp(t: DateTime)
    requires ValidDateTime(t)
    ensures ParseStamp(FormatStamp(t)) == Some(t)
  {
    var ts := FormatStamp(t);
    var date, time := ts[..8], ts[9..];
    assert date == PadDigits(t.year, 4) + PadDigits(t.month, 2) + PadDigits(t.day, 2);
    assert time == PadDigits(t.hour, 2) + PadDigits(t.minute, 2) + PadDigits(t.second, 2);
    assert date[..4] == PadDigits(t.year, 4) && date[4..6] == PadDigits(t.month, 2) && date[6..] == PadDigits(t.day, 2);
    assert time[..2] == PadDigits(t.hour, 2) && time[2..4] == PadDigits(t.minute, 2) && time[4..] == PadDigits(t.second, 2);
    ParsePadDigits(t.year, 4);
    ParsePadDigits(t.month, 2);
    ParsePadDigits(t.day, 2);
    ParsePadDigits(t.hour, 2);
    ParsePadDigits(t.minute, 2);
    ParsePadDigits(t.second, 2);
  }

  /** Conversely, whatever `ParseStamp` accepts is exactly the rendering of the reading it returns. */
  lemma FormatParseStamp(ts: string)
    requires ParseStamp(ts).Some?
    ensures FormatStamp(ParseStamp(ts).value) == ts
  {
    var date, time := ts[..8], ts[9..];
    PadParseFields(date, 4, 2);
    PadParseFields(time, 2, 2);
    assert ts == date + "_" + time;
  }

  lemma FormatStampInjective(t1: DateTime, t2: DateTime)
    requires ValidDateTime(t1) && ValidDateTime(t2)
    ensures FormatStamp(t1) == FormatStamp(t2) <==> t1 == t2
  {
    ParseFormatStamp(t1);
    ParseFormatStamp(t2);
  }

  lemma SingleDigitPadded(d: nat)
    requires d < 10
    ensures PadDigits(d, 2) == ['0', DigitChar(d)]
  {
    assert d / 10 == 0 && d % 10 == d;
    assert PadDigits(0, 1) == PadDigits(0, 0) + [DigitChar(0)] == "0";
    assert PadDigits(d, 2) == PadDigits(0, 1) + [DigitChar(d)];
  }

  lemma YearPadded()
    ensures PadDigits(2024, 4) == "2024"
  {
    assert PadDigits(2, 1) == "2";
    assert PadDigits(20, 2) == "20";
    assert PadDigits(202, 3) == "202";
  }

  lemma StampExample()
    ensures FormatStamp(DateTime(2024, 3, 5, 7, 8, 9)) == "20240305_070809"
  {
    YearPadded();
    SingleDigitPadded(3);
    SingleDigitPadded(5);
    SingleDigitPadded(7);
    SingleDigitPadded(8);
    SingleDigitPadded(9);
  }
}
