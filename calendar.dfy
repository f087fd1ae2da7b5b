/**
 * The proleptic Gregorian calendar of Python's `datetime.date`, reduced to
 * what the date picker needs: the day after a date, and its `%Y-%m-%d`
 * rendering. The rendering is specified by its inverse (`Parse`) and by the
 * fact that it orders dates the way Python orders the strings.
 */
module Calendar {
  import opened Wrappers

  datatype Date = Date(year: int, month: int, day: int)

  /** `datetime.MINYEAR` and `datetime.MAXYEAR`. */
  const MinYear := 1
  const MaxYear := 9999
  const LastDate := Date(9999, 12, 31)

  predicate IsLeapYear(y: int) {
    y % 4 == 0 && (y % 100 != 0 || y % 400 == 0)
  }

  function DaysInMonth(y: int, m: int): (n: int)
    requires 1 <= m <= 12
    ensures 28 <= n <= 31
    ensures n == 29 <==> m == 2 && IsLeapYear(y)
  {
    if m == 2 then (if IsLeapYear(y) then 29 else 28)
    else if m == 4 || m == 6 || m == 9 || m == 11 then 30
    else 31
  }

  /** A date that `datetime.date` can represent. */
  predicate IsValid(d: Date) {
    && MinYear <= d.year <= MaxYear
    && 1 <= d.month <= 12
    && 1 <= d.day <= DaysInMonth(d.year, d.month)
  }

  /** Chronological order. */
  predicate Before(a: Date, b: Date) {
    || a.year < b.year
    || (a.year == b.year && a.month < b.month)
    || (a.year == b.year && a.month == b.month && a.day < b.day)
  }

  /** `d + timedelta(days=1)`: the earliest valid date after `d`. */
  function NextDay(d: Date): (r: Date)
    requires IsValid(d) && d != LastDate
    ensures IsValid(r) && Before(d, r)
    ensures forall e :: IsValid(e) && Before(d, e) ==> e == r || Before(r, e)
  {
    if d.day < DaysInMonth(d.year, d.month) then Date(d.year, d.month, d.day + 1)
    else if d.month < 12 then Date(d.year, d.month + 1, 1)
    else Date(d.year + 1, 1, 1)
  }

  /**
   * A date a clock can report as "today" such that today + 2 days is still
   * representable (otherwise `date + timedelta` raises OverflowError).
   */
  predicate ClockDay(d: Date) {
    IsValid(d) && Before(d, Date(9999, 12, 30))
  }

  /** `[today + timedelta(days=i) for i in range(3)]`. */
  function Upcoming(today: Date): (ds: seq<Date>)
    requires ClockDay(today)
    ensures |ds| == 3 && ds[0] == today
    ensures forall i :: 0 <= i < 3 ==> IsValid(ds[i])
    ensures forall i :: 0 <= i < 2 ==> ds[i] != LastDate && ds[i + 1] == NextDay(ds[i])
  {
    var d1 := NextDay(today);
    assert d1 != LastDate;
    [today, d1, NextDay(d1)]
  }

  // ---------------------------------------------------------------------
  // Decimal digits

  function Pow10(w: nat): (p: nat)
    ensures p >= 1
  {
    if w == 0 then 1 else 10 * Pow10(w - 1)
  }

  predicate IsDigit(c: char) {
    '0' <= c <= '9'
  }

  predicate AllDigits(s: string) {
    forall i :: 0 <= i < |s| ==> IsDigit(s[i])
  }

  function DigitChar(k: int): (c: char)
    requires 0 <= k < 10
    ensures IsDigit(c) && c as int - '0' as int == k
  {
    ('0' as int + k) as char
  }

  /** The last `width` decimal digits of `n`, zero-padded on the left. */
  function Padded(n: nat, width: nat): (s: string)
    ensures |s| == width && AllDigits(s)
  {
    if width == 0 then [] else Padded(n / 10, width - 1) + [DigitChar(n % 10)]
  }

  /** The number a string of decimal digits denotes. */
  function DigitsValue(s: string): nat
    requires AllDigits(s)
  {
    if s == [] then 0
    else 10 * DigitsValue(s[..|s| - 1]) + (s[|s| - 1] as int - '0' as int)
  }

  lemma {:induction false} PaddedValue(n: nat, width: nat)
    requires n < Pow10(width)
    ensures DigitsValue(Padded(n, width)) == n
  {
    if width > 0 {
      var q, r := n / 10, n % 10;
      assert n == 10 * q + r && 0 <= r < 10;
      assert Pow10(width) == 10 * Pow10(width - 1);
      var init := Padded(q, width - 1);
      var s := Padded(n, width);
      assert s == init + [DigitChar(r)];
      assert s[..|s| - 1] == init;
      PaddedValue(q, width - 1);
      assert DigitsValue(s) == 10 * DigitsValue(init) + r;
    }
  }

  lemma {:induction false} ValuePadded(s: string)
    requires AllDigits(s)
    ensures DigitsValue(s) < Pow10(|s|)
    ensures Padded(DigitsValue(s), |s|) == s
  {
    if s != [] {
      var init := s[..|s| - 1];
      ValuePadded(init);
      var v := DigitsValue(s);
      var k := s[|s| - 1] as int - '0' as int;
      assert v / 10 == DigitsValue(init) && v % 10 == k;
      assert s == init + [s[|s| - 1]];
    }
  }

  // ---------------------------------------------------------------------
  // `%Y-%m-%d`

  /** `date.strftime("%Y-%m-%d")`. */
  function Format(d: Date): (s: string)
    requires IsValid(d)
    ensures |s| == 10 && s[4] == '-' && s[7] == '-'
    ensures AllDigits(s[..4]) && AllDigits(s[5..7]) && AllDigits(s[8..])
  {
    var s := Padded(d.year, 4) + "-" + Padded(d.month, 2) + "-" + Padded(d.day, 2);
    assert s[..4] == Padded(d.year, 4) && s[5..7] == Padded(d.month, 2) && s[8..] == Padded(d.day, 2);
    s
  }

  /** Reads a `%Y-%m-%d` string back; `None` for anything else. */
  function Parse(s: string): (r: Option<Date>)
    ensures r.Some? ==> IsValid(r.value)
  {
    if |s| == 10 && s[4] == '-' && s[7] == '-'
       && AllDigits(s[..4]) && AllDigits(s[5..7]) && AllDigits(s[8..])
    then
      var d := Date(DigitsValue(s[..4]), DigitsValue(s[5..7]), DigitsValue(s[8..]));
      if IsValid(d) then Some(d) else None
    else None
  }

  lemma ParseFormat(d: Date)
    requires IsValid(d)
    ensures Parse(Format(d)) == Some(d)
  {
    var s := Format(d);
    assert s[..4] == Padded(d.year, 4) && s[5..7] == Padded(d.month, 2) && s[8..] == Padded(d.day, 2);
    PaddedValue(d.year, 4);
    PaddedValue(d.month, 2);
    PaddedValue(d.day, 2);
  }

  lemma FormatParse(s: string, d: Date)
    requires Parse(s) == Some(d)
    ensures Format(d) == s
  {
    var y, mo, da := s[..4], s[5..7], s[8..];
    assert |s| == 10 && s[4] == '-' && s[7] == '-' && AllDigits(y) && AllDigits(mo) && AllDigits(da);
    assert d == Date(DigitsValue(y), DigitsValue(mo), DigitsValue(da));
    ValuePadded(y);
    ValuePadded(mo);
    ValuePadded(da);
    assert Format(d) == y + "-" + mo + "-" + da;
    assert s == y + "-" + mo + "-" + da;
  }

  lemma FormatInjective(a: Date, b: Date)
    requires IsValid(a) && IsValid(b) && Format(a) == Format(b)
    ensures a == b
  {
    ParseFormat(a);
    ParseFormat(b);
  }

  // ---------------------------------------------------------------------
  // Python's string order

  /** `a < b` on Python strings: lexicographic by code point. */
  predicate LexLess(a: string, b: string) {
    if |b| == 0 then false
    else if |a| == 0 then true
    else a[0] < b[0] || (a[0] == b[0] && LexLess(a[1..], b[1..]))
  }

  /** Python's string order is a strict order: never both ways. */
  lemma {:induction false} LexLessAsymmetric(a: string, b: string)
    ensures LexLess(a, b) ==> !LexLess(b, a)
  {
    if |a| > 0 && |b| > 0 && a[0] == b[0] {
      LexLessAsymmetric(a[1..], b[1..]);
    }
  }

  lemma {:induction false} LexLessCommonPrefix(p: string, a: string, b: string)
    requires LexLess(a, b)
    ensures LexLess(p + a, p + b)
  {
    if p == [] {
      assert p + a == a && p + b == b;
    } else {
      LexLessCommonPrefix(p[1..], a, b);
      assert (p + a)[0] == (p + b)[0];
      assert (p + a)[1..] == p[1..] + a && (p + b)[1..] == p[1..] + b;
    }
  }

  lemma {:induction false} LexLessExtend(a: string, b: string, u: string, v: string)
    requires |a| == |b| && LexLess(a, b)
    ensures LexLess(a + u, b + v)
  {
    if a[0] == b[0] {
      LexLessExtend(a[1..], b[1..], u, v);
      assert (a + u)[1..] == a[1..] + u && (b + v)[1..] == b[1..] + v;
    }
  }

  lemma {:induction false} PaddedMonotone(x: nat, y: nat, width: nat)
    requires x < y < Pow10(width)
    ensures LexLess(Padded(x, width), Padded(y, width))
  {
    if x / 10 < y / 10 {
      PaddedMonotone(x / 10, y / 10, width - 1);
      LexLessExtend(Padded(x / 10, width - 1), Padded(y / 10, width - 1),
                    [DigitChar(x % 10)], [DigitChar(y % 10)]);
    } else {
      assert LexLess([DigitChar(x % 10)], [DigitChar(y % 10)]);
      LexLessCommonPrefix(Padded(x / 10, width - 1), [DigitChar(x % 10)], [DigitChar(y % 10)]);
    }
  }

  /**
   * Rendered dates compare as strings exactly as the dates compare in time:
   * an earlier date renders to a smaller string, and a smaller rendering
   * belongs to an earlier date.
   */
  lemma FormatOrderReflectsTime(a: Date, b: Date)
    requires IsValid(a) && IsValid(b)
    ensures Before(a, b) <==> LexLess(Format(a), Format(b))
  {
    if Before(a, b) {
      FormatMonotone(a, b);
    } else if a == b {
      LexLessAsymmetric(Format(a), Format(a));
    } else {
      assert Before(b, a);
      FormatMonotone(b, a);
      LexLessAsymmetric(Format(b), Format(a));
    }
  }

  /** An earlier date renders to a smaller string. */
  lemma FormatMonotone(a: Date, b: Date)
    requires IsValid(a) && IsValid(b) && Before(a, b)
    ensures LexLess(Format(a), Format(b))
  {
    if a.year < b.year {
      FormatYearDecides(a, b);
    } else if a.month < b.month {
      FormatMonthDecides(a, b);
    } else {
      FormatDayDecides(a, b);
    }
  }

  lemma FormatYearDecides(a: Date, b: Date)
    requires IsValid(a) && IsValid(b) && a.year < b.year
    ensures LexLess(Format(a), Format(b))
  {
    var ya, ma, da := Padded(a.year, 4), Padded(a.month, 2), Padded(a.day, 2);
    var yb, mb, db := Padded(b.year, 4), Padded(b.month, 2), Padded(b.day, 2);
    PaddedMonotone(a.year, b.year, 4);
    LexLessField([], ya, yb, "-" + ma + "-" + da, "-" + mb + "-" + db);
    assert Format(a) == [] + ya + ("-" + ma + "-" + da);
    assert Format(b) == [] + yb + ("-" + mb + "-" + db);
  }

  lemma FormatMonthDecides(a: Date, b: Date)
    requires IsValid(a) && IsValid(b) && a.year == b.year && a.month < b.month
    ensures LexLess(Format(a), Format(b))
  {
    var ya, ma, da := Padded(a.year, 4), Padded(a.month, 2), Padded(a.day, 2);
    var mb, db := Padded(b.month, 2), Padded(b.day, 2);
    PaddedMonotone(a.month, b.month, 2);
    LexLessField(ya + "-", ma, mb, "-" + da, "-" + db);
    assert Format(a) == (ya + "-") + ma + ("-" + da);
    assert Format(b) == (ya + "-") + mb + ("-" + db);
  }

  lemma FormatDayDecides(a: Date, b: Date)
    requires IsValid(a) && IsValid(b) && a.year == b.year && a.month == b.month && a.day < b.day
    ensures LexLess(Format(a), Format(b))
  {
    var ya, ma, da := Padded(a.year, 4), Padded(a.month, 2), Padded(a.day, 2);
    var db := Padded(b.day, 2);
    PaddedMonotone(a.day, b.day, 2);
    LexLessField(ya + "-" + ma + "-", da, db, [], []);
    assert Format(a) == (ya + "-" + ma + "-") + da + [];
    assert Format(b) == (ya + "-" + ma + "-") + db + [];
  }

  /** A field that compares lower decides the comparison of two strings sharing everything before it. */
  lemma LexLessField(p: string, x: string, y: string, u: string, v: string)
    requires |x| == |y| && LexLess(x, y)
    ensures LexLess(p + x + u, p + y + v)
  {
    LexLessExtend(x, y, u, v);
    LexLessCommonPrefix(p, x + u, y + v);
    assert p + x + u == p + (x + u) && p + y + v == p + (y + v);
  }
}
