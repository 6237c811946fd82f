/** Python `datetime` values as far as the pipeline formats them. The clock
    itself is not modelled: a `DateTime` is always passed in. */
module Timestamps {
  import opened Format

  datatype DateTime = DateTime(year: nat, month: nat, day: nat, hour: nat, minute: nat, second: nat,
                               microsecond: nat)

  /** Every field fits the width `strftime` gives it. Any `datetime` Python
      can build (years 1 to 9999, microseconds below a million) does. */
  predicate FitsWidths(t: DateTime)
  {
    t.year < 10000 && t.month < 100 && t.day < 100 && t.hour < 100 && t.minute < 100
    && t.second < 100 && t.microsecond < 1000000
  }

  /** Two zero-padded digits (`%m`, `%d`, `%H`, `%M`, `%S`). */
  function Pad2(n: nat): (s: string)
    ensures AllDigits(s) && |s| >= 2 && DigitsValue(s) == n
    ensures n < 100 ==> |s| == 2
  {
    assert Pow10(2) == 100 by { assert Pow10(1) == 10; }
    PaddedNat(n, 2);
    ZeroPad(NatToString(n), 2)
  }

  /** Four zero-padded digits (`%Y`). */
  function Pad4(n: nat): (s: string)
    ensures AllDigits(s) && |s| >= 4 && DigitsValue(s) == n
    ensures n < 10000 ==> |s| == 4
  {
    assert Pow10(4) == 10000 by { assert Pow10(1) == 10; }
    PaddedNat(n, 4);
    ZeroPad(NatToString(n), 4)
  }

  /** Six zero-padded digits (microseconds in `isoformat()`). */
  function Pad6(n: nat): (s: string)
    ensures AllDigits(s) && |s| >= 6 && DigitsValue(s) == n
    ensures n < 1000000 ==> |s| == 6
  {
    assert Pow10(6) == 1000000 by { assert Pow10(1) == 10; }
    PaddedNat(n, 6);
    ZeroPad(NatToString(n), 6)
  }

  /** `%Y-%m-%d?%H:%M:%S` with `sep` in place of the question mark. */
  function Dashed(t: DateTime, sep: char): string
  {
    Pad4(t.year) + "-" + Pad2(t.month) + "-" + Pad2(t.day) + [sep]
    + Pad2(t.hour) + ":" + Pad2(t.minute) + ":" + Pad2(t.second)
  }

  /** `strftime("%Y-%m-%d %H:%M:%S")`. */
  function ReportStamp(t: DateTime): string
  {
    Dashed(t, ' ')
  }

  /** `strftime("%Y%m%d_%H%M%S")`: digits only, apart from the underscore. */
  function FileStamp(t: DateTime): (s: string)
    ensures |s| >= 15 && '0' <= s[|s| - 1] <= '9'
  {
    var tail := Pad2(t.hour) + Pad2(t.minute) + Pad2(t.second);
    var s := Pad4(t.year) + Pad2(t.month) + Pad2(t.day) + "_" + tail;
    assert s[|s| - 1] == Pad2(t.second)[|Pad2(t.second)| - 1];
    s
  }

  /** `isoformat()`: microseconds only when they are not zero. */
  function IsoFormat(t: DateTime): string
  {
    Dashed(t, 'T') + (if t.microsecond == 0 then "" else "." + Pad6(t.microsecond))
  }

  /** The layout shared by `%Y-%m-%d?%H:%M:%S` and `isoformat()`: where each
      field and separator sits. */
  lemma DashedLayout(y: string, mo: string, d: string, sep: char, h: string, mi: string, sc: string)
    requires |y| == 4 && |mo| == 2 && |d| == 2 && |h| == 2 && |mi| == 2 && |sc| == 2
    ensures var s := y + "-" + mo + "-" + d + [sep] + h + ":" + mi + ":" + sc;
      |s| == 19 && s[..4] == y && s[4] == '-' && s[5..7] == mo && s[7] == '-' && s[8..10] == d
      && s[10] == sep && s[11..13] == h && s[13] == ':' && s[14..16] == mi && s[16] == ':'
      && s[17..] == sc
  {
  }

  /** Where each field and separator of `Dashed` sits, and that each field
      reads back as the value it came from. */
  lemma DashedReadsBack(t: DateTime, sep: char)
    requires FitsWidths(t)
    ensures var s := Dashed(t, sep);
      |s| == 19 && s[4] == '-' && s[7] == '-' && s[10] == sep && s[13] == ':' && s[16] == ':'
      && DigitsValue(s[..4]) == t.year && DigitsValue(s[5..7]) == t.month
      && DigitsValue(s[8..10]) == t.day && DigitsValue(s[11..13]) == t.hour
      && DigitsValue(s[14..16]) == t.minute && DigitsValue(s[17..]) == t.second
  {
    DashedLayout(Pad4(t.year), Pad2(t.month), Pad2(t.day), sep, Pad2(t.hour), Pad2(t.minute),
                 Pad2(t.second));
  }

  /** The report stamp is 19 characters with its separators in place, and
      each field reads back as the value it came from. */
  lemma ReportStampReadsBack(t: DateTime)
    requires FitsWidths(t)
    ensures var s := ReportStamp(t);
      |s| == 19 && s[4] == '-' && s[7] == '-' && s[10] == ' ' && s[13] == ':' && s[16] == ':'
      && DigitsValue(s[..4]) == t.year && DigitsValue(s[5..7]) == t.month
      && DigitsValue(s[8..10]) == t.day && DigitsValue(s[11..13]) == t.hour
      && DigitsValue(s[14..16]) == t.minute && DigitsValue(s[17..]) == t.second
  {
    DashedReadsBack(t, ' ');
  }

  /** `isoformat()` has the report stamp's layout with a "T" in the middle,
      and six microsecond digits after a point exactly when there are any. */
  lemma IsoFormatReadsBack(t: DateTime)
    requires FitsWidths(t)
    ensures var s := IsoFormat(t);
      |s| == (if t.microsecond == 0 then 19 else 26) && s[..19] == Dashed(t, 'T')
      && s[4] == '-' && s[7] == '-' && s[10] == 'T' && s[13] == ':' && s[16] == ':'
      && DigitsValue(s[..4]) == t.year && DigitsValue(s[5..7]) == t.month
      && DigitsValue(s[8..10]) == t.day && DigitsValue(s[11..13]) == t.hour
      && DigitsValue(s[14..16]) == t.minute && DigitsValue(s[17..19]) == t.second
      && (t.microsecond != 0 ==> s[19] == '.' && DigitsValue(s[20..]) == t.microsecond)
  {
    var b := Dashed(t, 'T');
    DashedReadsBack(t, 'T');
    var m := if t.microsecond == 0 then "" else "." + Pad6(t.microsecond);
    assert IsoFormat(t) == b + m;
    PrefixSlices(b, m);
    assert |m| == (if t.microsecond == 0 then 0 else 7);
    if t.microsecond != 0 {
      DotSuffix(b, Pad6(t.microsecond));
    }
  }

  /** The fields of a 19-character stamp keep their places when text is
      appended to it. */
  lemma PrefixSlices(b: string, m: string)
    requires |b| == 19
    ensures var s := b + m;
      s[..19] == b && s[..4] == b[..4] && s[5..7] == b[5..7] && s[8..10] == b[8..10]
      && s[11..13] == b[11..13] && s[14..16] == b[14..16] && s[17..19] == b[17..]
  {
  }

  /** What follows `b` and a point is the appended text. */
  lemma DotSuffix(b: string, f: string)
    ensures (b + ("." + f))[|b|] == '.' && (b + ("." + f))[|b| + 1..] == f
  {
  }

  /** The layout of `%Y%m%d_%H%M%S`: where each field sits. */
  lemma CompactLayout(y: string, mo: string, d: string, h: string, mi: string, sc: string)
    requires |y| == 4 && |mo| == 2 && |d| == 2 && |h| == 2 && |mi| == 2 && |sc| == 2
    ensures var s := y + mo + d + "_" + (h + mi + sc);
      |s| == 15 && s[8] == '_' && s[..8] == y + mo + d && s[9..] == h + mi + sc
      && s[..4] == y && s[4..6] == mo && s[6..8] == d
      && s[9..11] == h && s[11..13] == mi && s[13..] == sc
  {
  }

  /** Runs of digits side by side are a run of digits. */
  lemma AllDigitsJoin(a: string, b: string, c: string)
    requires AllDigits(a) && AllDigits(b) && AllDigits(c)
    ensures AllDigits(a + b + c)
  {
  }

  /** `s` is what `%Y%m%d_%H%M%S` writes for `t`: fifteen characters, eight
      date digits, "_", six time digits, each field reading back as its
      value. */
  predicate FileStampOf(s: string, t: DateTime)
  {
    |s| == 15 && s[8] == '_'
    && AllDigits(s[..8]) && AllDigits(s[9..])
    && DigitsValue(s[..4]) == t.year && DigitsValue(s[4..6]) == t.month
    && DigitsValue(s[6..8]) == t.day && DigitsValue(s[9..11]) == t.hour
    && DigitsValue(s[11..13]) == t.minute && DigitsValue(s[13..]) == t.second
  }

  /** The file stamp of a datetime reads back as that datetime. */
  lemma FileStampReadsBack(t: DateTime)
    requires FitsWidths(t)
    ensures FileStampOf(FileStamp(t), t)
  {
    var y, mo, d := Pad4(t.year), Pad2(t.month), Pad2(t.day);
    var h, mi, sc := Pad2(t.hour), Pad2(t.minute), Pad2(t.second);
    assert FileStamp(t) == y + mo + d + "_" + (h + mi + sc);
    CompactLayout(y, mo, d, h, mi, sc);
    AllDigitsJoin(y, mo, d);
    AllDigitsJoin(h, mi, sc);
  }
}
