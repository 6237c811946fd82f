/** The pieces of Python's format mini-language the reports use:
    `str(n)`, `f"{n:,}"`, `f"{x:.Nf}"` and `f"{x:.1%}"`. A float is
    represented by its exact rational value; Python rounds that value
    half-to-even, and so does `RoundHalfEven`. */
module Format {

  function DigitChar(d: nat): (c: char)
    requires d < 10
    ensures '0' <= c <= '9'
  {
    "0123456789"[d]
  }

  function DigitValue(c: char): nat
  {
    if '0' <= c <= '9' then (c as int - '0' as int) as nat else 0
  }

  predicate AllDigits(s: string)
  {
    forall i :: 0 <= i < |s| ==> '0' <= s[i] <= '9'
  }

  /** Decimal digits of `n`, most significant first, no leading zeros. */
  function NatToString(n: nat): (s: string)
    ensures 1 <= |s| && AllDigits(s)
    decreases n
  {
    if n < 10 then [DigitChar(n)] else NatToString(n / 10) + [DigitChar(n % 10)]
  }

  /** Reading digits back, most significant first. */
  function DigitsValue(s: string): nat
  {
    if s == [] then 0 else DigitsValue(s[..|s| - 1]) * 10 + DigitValue(s[|s| - 1])
  }

  /** `NatToString` is read back exactly: the rendering loses nothing. */
  lemma {:induction false} NatToStringRoundTrip(n: nat)
    ensures DigitsValue(NatToString(n)) == n
    decreases n
  {
    var s := NatToString(n);
    if n < 10 {
      assert s[..|s| - 1] == [];
    } else {
      assert s[..|s| - 1] == NatToString(n / 10);
      NatToStringRoundTrip(n / 10);
    }
  }

  /** Python `str(i)` for an int. */
  function IntToString(i: int): string
  {
    if i < 0 then "-" + NatToString(-i) else NatToString(i)
  }

  /** `s` padded on the left with zeros to `width` characters. */
  function ZeroPad(s: string, width: nat): (r: string)
    ensures |r| == if |s| < width then width else |s|
    ensures AllDigits(s) ==> AllDigits(r)
    decreases width - |s|
  {
    if |s| < width then ZeroPad("0" + s, width) else s
  }

  function GroupedNat(n: nat): string
    decreases n
  {
    if n < 1000 then NatToString(n)
    else GroupedNat(n / 1000) + "," + ZeroPad(NatToString(n % 1000), 3)
  }

  /** Python `f"{i:,}"`: thousands separated by commas. */
  function Grouped(i: int): string
  {
    if i < 0 then "-" + GroupedNat(-i) else GroupedNat(i)
  }

  function Pow10(k: nat): (p: nat)
    ensures p >= 1
  {
    if k == 0 then 1 else 10 * Pow10(k - 1)
  }

  /** The integer nearest to `x`, ties to the even neighbour. */
  function RoundHalfEven(x: real): (r: int)
    ensures x - 1.0 / 2.0 <= r as real <= x + 1.0 / 2.0
  {
    var f := x.Floor;
    var frac := x - f as real;
    if frac < 1.0 / 2.0 then f
    else if frac > 1.0 / 2.0 then f + 1
    else if f % 2 == 0 then f else f + 1
  }

  /** `x` counted in units of the `places`-th decimal place. */
  function InUnits(x: real, places: nat): real
  {
    x * Pow10(places) as real
  }

  /** `x` scaled by 10^places and rounded, as a count of the last place. */
  function ScaledUnits(magnitude: real, places: nat): nat
    requires magnitude >= 0.0
  {
    var r := RoundHalfEven(InUnits(magnitude, places));
    if r < 0 then 0 else r
  }

  /** A count of `places`-th decimal places written with its decimal
      point: at least one digit before the point, exactly `places` after. */
  function PointDigits(units: nat, places: nat): string
  {
    if places == 0 then NatToString(units)
    else Pointed(ZeroPad(NatToString(units), places + 1), places)
  }

  /** A run of digits with a point put `places` digits from its end. */
  function Pointed(digits: string, places: nat): string
    requires places < |digits|
  {
    digits[..|digits| - places] + "." + digits[|digits| - places..]
  }

  /** Python `f"{x:.{places}f}"`. */
  function Fixed(x: real, places: nat): string
  {
    if x < 0.0 then "-" + PointDigits(ScaledUnits(-x, places), places)
    else PointDigits(ScaledUnits(x, places), places)
  }

  /** Python `f"{x:.1%}"`. */
  function Percent1(x: real): string
  {
    Fixed(x * 100.0, 1) + "%"
  }

  /** Python `round(x, places)` on the exact value: a whole number of the
      last place, at most half of one away from `x`. */
  function RoundTo(x: real, places: nat): (r: real)
    ensures ExactIn(r, places)
    ensures InUnits(x, places) - 1.0 / 2.0 <= InUnits(r, places) <= InUnits(x, places) + 1.0 / 2.0
  {
    var n := RoundHalfEven(InUnits(x, places));
    var r := n as real / Pow10(places) as real;
    WholeUnits(n, places, r);
    r
  }

  /** Rounding a non-negative number gives a non-negative number. */
  lemma RoundToNonNegative(x: real, places: nat)
    requires x >= 0.0
    ensures RoundTo(x, places) >= 0.0
  {
    var p := Pow10(places) as real;
    assert InUnits(x, places) >= 0.0;
    var n := RoundHalfEven(InUnits(x, places));
    assert n >= 0;
    assert RoundTo(x, places) == n as real / p;
  }

  /** A whole number of `places`-th decimal places, divided back. */
  lemma WholeUnits(n: int, places: nat, r: real)
    requires r == n as real / Pow10(places) as real
    ensures InUnits(r, places) == n as real && ExactIn(r, places)
  {
    var p := Pow10(places) as real;
    assert r * p == n as real;
    assert (n as real).Floor == n;
  }

  predicate IsWhole(x: real)
  {
    x.Floor as real == x
  }

  /** `x` is written exactly with `places` decimals. */
  predicate ExactIn(x: real, places: nat)
  {
    IsWhole(InUnits(x, places))
  }

  /** The number of decimals needed to write `x` exactly, from `k` on and
      at most 17: none of the counts below it is enough. */
  function DecimalsNeeded(x: real, k: nat): (n: nat)
    requires k <= 17
    ensures k <= n <= 17
    ensures n == 17 || ExactIn(x, n)
    ensures forall j :: k <= j < n ==> !ExactIn(x, j)
    decreases 17 - k
  {
    if k == 17 || ExactIn(x, k) then k else DecimalsNeeded(x, k + 1)
  }

  /** Python `str(x)` for a float whose value is the decimal `x`: the
      shortest exact decimal, with ".0" for a whole number. */
  function FloatRepr(x: real): string
  {
    var k := DecimalsNeeded(x, 0);
    Fixed(x, if k == 0 then 1 else k)
  }

  /** `s` with every `c` taken out: the digits of a written number
      without its decimal point or its thousands separators. */
  function Drop(s: string, c: char): (r: string)
    ensures |r| <= |s|
  {
    if s == [] then []
    else Drop(s[..|s| - 1], c) + (if s[|s| - 1] == c then [] else [s[|s| - 1]])
  }

  lemma {:induction false} DropAppend(a: string, b: string, c: char)
    ensures Drop(a + b, c) == Drop(a, c) + Drop(b, c)
    decreases |b|
  {
    if b != [] {
      var b' := b[..|b| - 1];
      assert (a + b)[..|a + b| - 1] == a + b';
      DropAppend(a, b', c);
    } else {
      assert a + b == a;
    }
  }

  lemma {:induction false} DropDigits(s: string, c: char)
    requires AllDigits(s) && !('0' <= c <= '9')
    ensures Drop(s, c) == s
    decreases |s|
  {
    if s != [] {
      DropDigits(s[..|s| - 1], c);
      assert s == s[..|s| - 1] + [s[|s| - 1]];
    }
  }

  lemma DropSingle(c: char)
    ensures Drop([c], c) == []
  {
    assert [c][..0] == [];
  }

  /** Reading digits is positional: the digits of `a` count `|b|` places
      higher in front of `b`. */
  lemma {:induction false} DigitsValueAppend(a: string, b: string)
    ensures DigitsValue(a + b) == DigitsValue(a) * Pow10(|b|) + DigitsValue(b)
    decreases |b|
  {
    if b == [] {
      assert a + b == a;
    } else {
      var b' := b[..|b| - 1];
      assert (a + b)[..|a + b| - 1] == a + b';
      assert (a + b)[|a + b| - 1] == b[|b| - 1];
      DigitsValueAppend(a, b');
      assert DigitsValue(a + b) == DigitsValue(a + b') * 10 + DigitValue(b[|b| - 1]);
      assert DigitsValue(b) == DigitsValue(b') * 10 + DigitValue(b[|b| - 1]);
      assert Pow10(|b|) == Pow10(|b'|) * 10;
      ShiftOneDigit(DigitsValue(a), Pow10(|b'|), DigitsValue(b'), DigitValue(b[|b| - 1]));
    }
  }

  /** One more digit multiplies what precedes it by ten. */
  lemma ShiftOneDigit(x: int, p: int, y: int, d: int)
    ensures (x * p + y) * 10 + d == x * (p * 10) + (y * 10 + d)
  {
  }

  /** Leading zeros do not change the value read. */
  lemma {:induction false} ZeroPadValue(s: string, width: nat)
    ensures DigitsValue(ZeroPad(s, width)) == DigitsValue(s)
    decreases width - |s|
  {
    if |s| < width {
      ZeroPadValue("0" + s, width);
      DigitsValueAppend("0", s);
      assert "0"[..0] == [];
    }
  }

  /** A number below 10^k has at most k digits. */
  lemma {:induction false} NatToStringLength(n: nat, k: nat)
    requires 1 <= k && n < Pow10(k)
    ensures |NatToString(n)| <= k
    decreases n
  {
    assert Pow10(1) == 10;
    if n >= 10 {
      assert n / 10 < Pow10(k - 1);
      NatToStringLength(n / 10, k - 1);
    }
  }

  /** `n` written with zeros to `width` digits reads back as `n`, and is
      exactly `width` digits long when `n` is below 10^width. */
  lemma PaddedNat(n: nat, width: nat)
    ensures AllDigits(ZeroPad(NatToString(n), width))
    ensures DigitsValue(ZeroPad(NatToString(n), width)) == n
    ensures 1 <= width && n < Pow10(width) ==> |ZeroPad(NatToString(n), width)| == width
  {
    ZeroPadValue(NatToString(n), width);
    NatToStringRoundTrip(n);
    if 1 <= width && n < Pow10(width) {
      NatToStringLength(n, width);
    }
  }

  /** Taking out a separator between two runs of digits joins them. */
  lemma DropBetween(hd: string, tl: string, c: char)
    requires AllDigits(hd) && AllDigits(tl) && !('0' <= c <= '9')
    ensures Drop(hd + [c] + tl, c) == hd + tl
  {
    DropAppend(hd + [c], tl, c);
    DropAppend(hd, [c], c);
    DropSingle(c);
    DropDigits(hd, c);
    DropDigits(tl, c);
  }

  /** A point put `places` digits from the end of a run of digits is the
      only thing `Drop` takes out, so the digits read back unchanged. */
  lemma PointedReadBack(digits: string, places: nat)
    requires AllDigits(digits) && places < |digits|
    ensures var s := Pointed(digits, places);
            Drop(s, '.') == digits && |s| == |digits| + 1 && s[|s| - places - 1] == '.'
  {
    var k := |digits| - places;
    var hd, tl := digits[..k], digits[k..];
    assert AllDigits(hd) by { forall i | 0 <= i < |hd| ensures '0' <= hd[i] <= '9' { assert hd[i] == digits[i]; } }
    assert AllDigits(tl) by { forall i | 0 <= i < |tl| ensures '0' <= tl[i] <= '9' { assert tl[i] == digits[k + i]; } }
    DropBetween(hd, tl, '.');
    assert hd + tl == digits;
    assert Pointed(digits, places) == hd + ['.'] + tl;
    assert (hd + ['.'] + tl)[k] == '.';
  }

  /** A count of last places is written with exactly `places` digits after
      the point, and its digits read back as the count. */
  lemma PointDigitsReadBack(units: nat, places: nat)
    ensures DigitsValue(Drop(PointDigits(units, places), '.')) == units
    ensures places > 0 ==> |PointDigits(units, places)| >= places + 2
                           && PointDigits(units, places)[|PointDigits(units, places)| - places - 1] == '.'
  {
    if places == 0 {
      WholeDigitsReadBack(units);
    } else {
      FractionDigitsReadBack(units, places);
    }
  }

  lemma FractionDigitsReadBack(units: nat, places: nat)
    requires places > 0
    ensures var s := PointDigits(units, places);
            DigitsValue(Drop(s, '.')) == units && |s| >= places + 2 && s[|s| - places - 1] == '.'
  {
    var digits := ZeroPad(NatToString(units), places + 1);
    PaddedNat(units, places + 1);
    PointedReadBack(digits, places);
    assert PointDigits(units, places) == Pointed(digits, places);
  }

  lemma WholeDigitsReadBack(units: nat)
    ensures DigitsValue(Drop(PointDigits(units, 0), '.')) == units
  {
    var s := NatToString(units);
    assert PointDigits(units, 0) == s;
    DropDigits(s, '.');
    NatToStringRoundTrip(units);
  }

  /** The written count starts with a digit. */
  lemma PointDigitsStartsWithDigit(units: nat, places: nat)
    ensures |PointDigits(units, places)| >= 1 && '0' <= PointDigits(units, places)[0] <= '9'
  {
    PaddedNat(units, places + 1);
    if places > 0 {
      var digits := ZeroPad(NatToString(units), places + 1);
      var k := |digits| - places;
      assert PointDigits(units, places) == digits[..k] + "." + digits[k..];
      assert PointDigits(units, places)[0] == digits[0];
    }
  }

  /** The rounded count of last places is within half a place of the
      magnitude. */
  lemma ScaledUnitsWithin(m: real, places: nat)
    requires m >= 0.0
    ensures InUnits(m, places) - 1.0 / 2.0 <= ScaledUnits(m, places) as real <= InUnits(m, places) + 1.0 / 2.0
  {
    assert InUnits(m, places) >= 0.0;
  }

  /** `f"{x:.{places}f}"` reads back: a minus sign exactly for a negative
      value, then digits that, counted in the last place, are at most half
      a place away from the magnitude of `x`. */
  lemma FixedReadsBack(x: real, places: nat)
    ensures var s := Fixed(x, places);
            var m := if x < 0.0 then -x else x;
            var digits := if x < 0.0 then s[1..] else s;
            |s| >= 1 && (s[0] == '-' <==> x < 0.0)
            && InUnits(m, places) - 1.0 / 2.0 <= DigitsValue(Drop(digits, '.')) as real <= InUnits(m, places) + 1.0 / 2.0
  {
    var m := if x < 0.0 then -x else x;
    var u := ScaledUnits(m, places);
    var body := PointDigits(u, places);
    PointDigitsReadBack(u, places);
    PointDigitsStartsWithDigit(u, places);
    ScaledUnitsWithin(m, places);
    if x < 0.0 {
      assert Fixed(x, places) == "-" + body;
      assert Fixed(x, places)[1..] == body;
    } else {
      assert Fixed(x, places) == body;
    }
  }

  /** `f"{x:.1%}"` reads back: it ends in "%", has one digit after the
      point, and its digits, counted in tenths, are within half a tenth of
      the magnitude of `x` in percent. */
  lemma Percent1ReadsBack(x: real)
    ensures var s := Percent1(x);
            var f := s[..|s| - 1];
            var m := if x < 0.0 then -x * 100.0 else x * 100.0;
            var digits := if x < 0.0 then f[1..] else f;
            |s| >= 4 && s[|s| - 1] == '%' && f[|f| - 2] == '.'
            && InUnits(m, 1) - 1.0 / 2.0 <= DigitsValue(Drop(digits, '.')) as real <= InUnits(m, 1) + 1.0 / 2.0
  {
    var y := x * 100.0;
    FixedReadsBack(y, 1);
    var f := Fixed(y, 1);
    assert Percent1(x)[..|Percent1(x)| - 1] == f;
    assert (y < 0.0) == (x < 0.0);
    assert (if y < 0.0 then -y else y) == (if x < 0.0 then -x * 100.0 else x * 100.0);
    var u := ScaledUnits(if y < 0.0 then -y else y, 1);
    PointDigitsReadBack(u, 1);
    if y < 0.0 {
      assert f == "-" + PointDigits(u, 1);
    } else {
      assert f == PointDigits(u, 1);
    }
  }

  /** A value exact with no decimals is exact with one. */
  lemma ExactInOne(x: real)
    requires ExactIn(x, 0)
    ensures ExactIn(x, 1)
  {
    assert Pow10(0) == 1 && Pow10(1) == 10;
    assert InUnits(x, 0) == x;
    var n := x.Floor;
    assert InUnits(x, 1) == (n * 10) as real;
  }

  /** Exactness does not depend on the sign. */
  lemma ExactInNegated(x: real, places: nat)
    requires ExactIn(x, places)
    ensures ExactIn(-x, places) && InUnits(-x, places) == -InUnits(x, places)
  {
    var n := InUnits(x, places).Floor;
    assert InUnits(-x, places) == (-n) as real;
  }

  /** A whole value is its own rounding. */
  lemma RoundWhole(y: real)
    requires IsWhole(y)
    ensures RoundHalfEven(y) as real == y
  {
  }

  /** A value exact with `places` decimals is written exactly, with the
      point `places` digits from the end. */
  lemma FixedExact(x: real, places: nat)
    requires places > 0 && ExactIn(if x < 0.0 then -x else x, places)
    ensures var s := Fixed(x, places);
            var m := if x < 0.0 then -x else x;
            var digits := if x < 0.0 then s[1..] else s;
            |s| >= places + 2 && s[|s| - places - 1] == '.' && (s[0] == '-' <==> x < 0.0)
            && DigitsValue(Drop(digits, '.')) as real == InUnits(m, places)
  {
    var m := if x < 0.0 then -x else x;
    RoundWhole(InUnits(m, places));
    var u := ScaledUnits(m, places);
    PointDigitsReadBack(u, places);
    PointDigitsStartsWithDigit(u, places);
    var body := PointDigits(u, places);
    if x < 0.0 {
      assert Fixed(x, places) == "-" + body;
      assert Fixed(x, places)[1..] == body;
    } else {
      assert Fixed(x, places) == body;
    }
  }

  /** `str(x)` for a float: at least one digit after the point, and for a
      value with at most 17 decimals the written digits are `x` exactly,
      with no shorter exact writing (apart from the ".0" of a whole number). */
  lemma FloatReprReadsBack(x: real)
    requires ExactIn(x, 17)
    ensures var k := DecimalsNeeded(x, 0);
            var p := if k == 0 then 1 else k;
            var s := FloatRepr(x);
            var m := if x < 0.0 then -x else x;
            var digits := if x < 0.0 then s[1..] else s;
            |s| >= p + 2 && s[|s| - p - 1] == '.' && (s[0] == '-' <==> x < 0.0)
            && DigitsValue(Drop(digits, '.')) as real == InUnits(m, p)
            && forall j :: 1 <= j < p ==> !ExactIn(x, j)
  {
    var k := DecimalsNeeded(x, 0);
    var p := if k == 0 then 1 else k;
    if k == 0 {
      ExactInOne(x);
    }
    assert ExactIn(if x < 0.0 then -x else x, p) by {
      if x < 0.0 {
        ExactInNegated(x, p);
      }
    }
    FixedExact(x, p);
    assert FloatRepr(x) == Fixed(x, p);
  }

  /** Digits with a comma exactly at every fourth place from the end, so
      each group after the first has three digits. */
  predicate GroupedShape(s: string)
  {
    1 <= |s| && '0' <= s[0] <= '9'
    && (forall i :: 0 <= i < |s| ==> '0' <= s[i] <= '9' || s[i] == ',')
    && (forall i :: 0 <= i < |s| ==> (s[i] == ',' <==> 0 < i && (|s| - i) % 4 == 0))
  }

  /** Appending a comma and a group of three digits keeps the shape. */
  lemma AppendGroupShape(g: string, z: string)
    requires GroupedShape(g) && AllDigits(z) && |z| == 3
    ensures GroupedShape(g + [','] + z)
  {
    var s := g + [','] + z;
    forall i | 0 <= i < |s| ensures s[i] == ',' <==> 0 < i && (|s| - i) % 4 == 0 {
      if i < |g| {
        assert s[i] == g[i] && |s| - i == (|g| - i) + 4;
      } else if i > |g| {
        assert s[i] == z[i - |g| - 1];
      }
    }
    forall i | 0 <= i < |s| ensures '0' <= s[i] <= '9' || s[i] == ',' {
      if i < |g| {
        assert s[i] == g[i];
      } else if i > |g| {
        assert s[i] == z[i - |g| - 1];
      }
    }
  }

  /** The appended group counts as the last three digits. */
  lemma AppendGroupDigits(g: string, z: string)
    requires AllDigits(Drop(g, ',')) && AllDigits(z) && |z| == 3
    ensures AllDigits(Drop(g + [','] + z, ','))
    ensures DigitsValue(Drop(g + [','] + z, ',')) == DigitsValue(Drop(g, ',')) * 1000 + DigitsValue(z)
  {
    DropAppend(g + [','], z, ',');
    DropAppend(g, [','], ',');
    DropSingle(',');
    DropDigits(z, ',');
    assert Drop(g + [','] + z, ',') == Drop(g, ',') + z;
    DigitsValueAppend(Drop(g, ','), z);
    assert Pow10(3) == 1000;
  }

  /** `f"{n:,}"` for a natural number: grouped digits that, commas dropped,
      read back as `n`. */
  lemma {:induction false} GroupedNatReadsBack(n: nat)
    ensures GroupedShape(GroupedNat(n))
    ensures AllDigits(Drop(GroupedNat(n), ',')) && DigitsValue(Drop(GroupedNat(n), ',')) == n
    decreases n
  {
    if n < 1000 {
      SingleGroup(n);
    } else {
      GroupedNatReadsBack(n / 1000);
      NextGroup(n);
    }
  }

  /** Below a thousand the grouping is the plain decimal rendering. */
  lemma SingleGroup(n: nat)
    requires n < 1000
    ensures GroupedShape(GroupedNat(n))
    ensures AllDigits(Drop(GroupedNat(n), ',')) && DigitsValue(Drop(GroupedNat(n), ',')) == n
  {
    var s := NatToString(n);
    assert Pow10(3) == 1000;
    NatToStringLength(n, 3);
    NatToStringRoundTrip(n);
    DropDigits(s, ',');
    ShortGroupShape(s);
    assert GroupedNat(n) == s;
  }

  /** One to three digits form a single group. */
  lemma ShortGroupShape(s: string)
    requires AllDigits(s) && 1 <= |s| <= 3
    ensures GroupedShape(s)
  {
    forall i | 0 <= i < |s| ensures s[i] != ',' && (|s| - i) % 4 != 0 {
      assert 1 <= |s| - i <= 3;
    }
  }

  /** From a thousand up, the grouping of `n / 1000` gains one more group. */
  lemma NextGroup(n: nat)
    requires n >= 1000
    requires GroupedShape(GroupedNat(n / 1000))
    requires AllDigits(Drop(GroupedNat(n / 1000), ','))
    requires DigitsValue(Drop(GroupedNat(n / 1000), ',')) == n / 1000
    ensures GroupedShape(GroupedNat(n))
    ensures AllDigits(Drop(GroupedNat(n), ',')) && DigitsValue(Drop(GroupedNat(n), ',')) == n
  {
    var g := GroupedNat(n / 1000);
    var z := ZeroPad(NatToString(n % 1000), 3);
    assert Pow10(3) == 1000;
    PaddedNat(n % 1000, 3);
    AppendGroupShape(g, z);
    AppendGroupDigits(g, z);
    assert GroupedNat(n) == g + [','] + z;
  }

  /** `f"{i:,}"` reads back: a minus sign exactly for a negative number,
      then the grouped digits of its magnitude. */
  lemma GroupedReadsBack(i: int)
    ensures var s := Grouped(i);
            var digits := if i < 0 then s[1..] else s;
            |s| >= 1 && (s[0] == '-' <==> i < 0)
            && GroupedShape(digits) && DigitsValue(Drop(digits, ',')) == (if i < 0 then -i else i)
  {
    var m := if i < 0 then -i else i;
    GroupedNatReadsBack(m);
    if i < 0 {
      assert Grouped(i)[1..] == GroupedNat(m);
    }
  }
}
