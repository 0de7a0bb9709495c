/**
 * Proleptic Gregorian dates as Python's datetime keeps them (years 1 to 9999),
 * day arithmetic with timedelta(days=...), and the strftime patterns
 * '%Y-%m-%d' and '%H-%M-%S' used for partition keys and query filters.
 */
module Calendar {
  import opened Base
  import opened Text

  datatype Date = Date(year: int, month: int, day: int)

  /** A wall-clock reading to the second: the date and the time of day. */
  datatype Instant = Instant(date: Date, hour: int, minute: int, second: int)

  predicate IsLeapYear(y: int) { y % 4 == 0 && (y % 100 != 0 || y % 400 == 0) }

  function DaysInMonth(y: int, m: int): (n: int)
    requires 1 <= m <= 12
    ensures 28 <= n <= 31
  {
    if m == 2 then (if IsLeapYear(y) then 29 else 28)
    else if m == 4 || m == 6 || m == 9 || m == 11 then 30
    else 31
  }

  predicate ValidDate(d: Date)
  {
    1 <= d.year <= 9999 && 1 <= d.month <= 12 && 1 <= d.day <= DaysInMonth(d.year, d.month)
  }

  predicate ValidInstant(t: Instant)
  {
    ValidDate(t.date) && 0 <= t.hour < 24 && 0 <= t.minute < 60 && 0 <= t.second < 60
  }

  const FirstDate := Date(1, 1, 1)
  const LastDate := Date(9999, 12, 31)

  /** Chronological order of dates. */
  predicate Before(a: Date, b: Date)
  {
    a.year < b.year || (a.year == b.year && (a.month < b.month || (a.month == b.month && a.day < b.day)))
  }

  /** The day before d; None before 0001-01-01, where datetime raises OverflowError. */
  function PrevDay(d: Date): (r: Option<Date>)
    requires ValidDate(d)
    ensures r.Some? <==> d != FirstDate
    ensures r.Some? ==> ValidDate(r.value) && Before(r.value, d)
  {
    if d.day > 1 then Some(Date(d.year, d.month, d.day - 1))
    else if d.month > 1 then Some(Date(d.year, d.month - 1, DaysInMonth(d.year, d.month - 1)))
    else if d.year > 1 then Some(Date(d.year - 1, 12, 31))
    else None
  }

  /** The day after d; None after 9999-12-31. */
  function NextDay(d: Date): (r: Option<Date>)
    requires ValidDate(d)
    ensures r.Some? <==> d != LastDate
    ensures r.Some? ==> ValidDate(r.value) && Before(d, r.value)
  {
    if d.day < DaysInMonth(d.year, d.month) then Some(Date(d.year, d.month, d.day + 1))
    else if d.month < 12 then Some(Date(d.year, d.month + 1, 1))
    else if d.year < 9999 then Some(Date(d.year + 1, 1, 1))
    else None
  }

  /** Stepping back a day and then forward a day returns to the start. */
  lemma NextOfPrev(d: Date)
    requires ValidDate(d) && d != FirstDate
    ensures NextDay(PrevDay(d).value) == Some(d)
  {
  }

  lemma PrevOfNext(d: Date)
    requires ValidDate(d) && d != LastDate
    ensures PrevDay(NextDay(d).value) == Some(d)
  {
  }

  /**
   * d moved by k days, as `datetime - timedelta(days=-k)` moves the date of a
   * datetime; None when the result leaves datetime's range.
   */
  function ShiftDays(d: Date, k: int): (r: Option<Date>)
    requires ValidDate(d)
    ensures r.Some? ==> ValidDate(r.value)
    decreases if k < 0 then -k else k
  {
    if k == 0 then Some(d)
    else if k < 0 then
      match PrevDay(d)
      case None => None
      case Some(p) => ShiftDays(p, k + 1)
    else
      match NextDay(d)
      case None => None
      case Some(n) => ShiftDays(n, k - 1)
  }

  lemma BeforeTransitive(a: Date, b: Date, c: Date)
    requires Before(a, b) && Before(b, c)
    ensures Before(a, c)
  {
  }

  /** Shifting back by n > 0 days lands strictly earlier; forward by n > 0, strictly later. */
  lemma {:induction false} ShiftDaysDirection(d: Date, k: int)
    requires ValidDate(d)
    ensures var r := ShiftDays(d, k);
      r.Some? ==> (k < 0 ==> Before(r.value, d)) && (k > 0 ==> Before(d, r.value)) && (k == 0 ==> r.value == d)
    decreases if k < 0 then -k else k
  {
    if k < 0 {
      var p := PrevDay(d);
      if p.Some? {
        ShiftDaysDirection(p.value, k + 1);
        var r := ShiftDays(d, k);
        if r.Some? && k + 1 < 0 {
          BeforeTransitive(r.value, p.value, d);
        }
      }
    } else if k > 0 {
      var n := NextDay(d);
      if n.Some? {
        ShiftDaysDirection(n.value, k - 1);
        var r := ShiftDays(d, k);
        if r.Some? && k - 1 > 0 {
          BeforeTransitive(d, n.value, r.value);
        }
      }
    }
  }

  // ---------------------------------------------------------------- strftime

  /** strftime('%Y-%m-%d'). */
  function FormatDate(d: Date): (s: string)
    requires ValidDate(d)
    ensures |s| == 10
  {
    Digits(d.year, 4) + "-" + Digits(d.month, 2) + "-" + Digits(d.day, 2)
  }

  /** strftime('%H-%M-%S'). */
  function FormatTime(t: Instant): (s: string)
    requires ValidInstant(t)
    ensures |s| == 8
  {
    Digits(t.hour, 2) + "-" + Digits(t.minute, 2) + "-" + Digits(t.second, 2)
  }

  /** The shape of a 'yyyy-MM-dd' stamp: digits with dashes at positions 4 and 7. */
  predicate IsDateStamp(s: string)
  {
    |s| == 10 && s[4] == '-' && s[7] == '-'
    && forall i :: 0 <= i < 10 && i != 4 && i != 7 ==> IsDigit(s[i])
  }

  lemma FormatDateIsStamp(d: Date)
    requires ValidDate(d)
    ensures IsDateStamp(FormatDate(d)) && '/' !in FormatDate(d)
  {
    var s := FormatDate(d);
    assert s[..4] == Digits(d.year, 4);
    assert s[5..7] == Digits(d.month, 2);
    assert s[8..] == Digits(d.day, 2);
    forall i | 0 <= i < 10 && i != 4 && i != 7 ensures IsDigit(s[i]) {
      if i < 4 { assert s[i] == s[..4][i]; }
      else if i < 7 { assert s[i] == s[5..7][i - 5]; }
      else { assert s[i] == s[8..][i - 8]; }
    }
  }

  lemma FormatTimeShape(t: Instant)
    requires ValidInstant(t)
    ensures '/' !in FormatTime(t)
    ensures FormatTime(t)[2] == '-' && FormatTime(t)[5] == '-'
  {
    var s := FormatTime(t);
    assert s[..2] == Digits(t.hour, 2);
    assert s[3..5] == Digits(t.minute, 2);
    assert s[6..] == Digits(t.second, 2);
    forall i | 0 <= i < 8 ensures s[i] != '/' {
      if i < 2 { assert s[i] == s[..2][i]; }
      else if 2 < i < 5 { assert s[i] == s[3..5][i - 3]; }
      else if i > 5 { assert s[i] == s[6..][i - 6]; }
    }
  }

  /**
   * 'yyyy-MM-dd' stamps sort as strings exactly as the dates sort in time,
   * which is what makes string comparisons of the dt partition column
   * (equality, BETWEEN) select date ranges.
   */
  lemma FormatDateOrder(a: Date, b: Date)
    requires ValidDate(a) && ValidDate(b)
    ensures LexLess(FormatDate(a), FormatDate(b)) <==> Before(a, b)
  {
    YearSplit(a, b);
    FieldOrder(a.year, b.year, 4);
    MonthDayOrder(a, b);
  }

  /** The date stamp compares by its year field, then by the month-day rest. */
  lemma YearSplit(a: Date, b: Date)
    requires ValidDate(a) && ValidDate(b)
    ensures LexLess(FormatDate(a), FormatDate(b)) <==>
      LexLess(Digits(a.year, 4), Digits(b.year, 4)) ||
      (Digits(a.year, 4) == Digits(b.year, 4) &&
       LexLess(Digits(a.month, 2) + "-" + Digits(a.day, 2), Digits(b.month, 2) + "-" + Digits(b.day, 2)))
  {
    var ya, yb := Digits(a.year, 4), Digits(b.year, 4);
    var ra, rb := Digits(a.month, 2) + "-" + Digits(a.day, 2), Digits(b.month, 2) + "-" + Digits(b.day, 2);
    assert FormatDate(a) == ya + "-" + ra;
    assert FormatDate(b) == yb + "-" + rb;
    DashJoinOrder(ya, ra, yb, rb);
  }

  /** A fixed-width field orders and equates as its number does. */
  lemma FieldOrder(x: nat, y: nat, w: nat)
    requires x < Pow10(w) && y < Pow10(w)
    ensures LexLess(Digits(x, w), Digits(y, w)) <==> x < y
    ensures Digits(x, w) == Digits(y, w) <==> x == y
  {
    DigitsOrder(x, y, w);
    if Digits(x, w) == Digits(y, w) { DigitsInjective(x, y, w); }
  }

  /** Two fixed-width fields joined by a dash compare field by field. */
  lemma DashJoinOrder(p: string, r: string, q: string, t: string)
    requires |p| == |q|
    ensures LexLess(p + "-" + r, q + "-" + t) <==> LexLess(p, q) || (p == q && LexLess(r, t))
  {
    assert p + "-" + r == p + ("-" + r);
    assert q + "-" + t == q + ("-" + t);
    LexLessConcat(p, "-" + r, q, "-" + t);
    LexLessConcat("-", r, "-", t);
    LexLessIrreflexive("-");
  }

  lemma MonthDayOrder(a: Date, b: Date)
    requires ValidDate(a) && ValidDate(b)
    ensures LexLess(Digits(a.month, 2) + "-" + Digits(a.day, 2), Digits(b.month, 2) + "-" + Digits(b.day, 2)) <==>
      a.month < b.month || (a.month == b.month && a.day < b.day)
  {
    DashJoinOrder(Digits(a.month, 2), Digits(a.day, 2), Digits(b.month, 2), Digits(b.day, 2));
    FieldOrder(a.month, b.month, 2);
    FieldOrder(a.day, b.day, 2);
  }

  lemma FormatDateInjective(a: Date, b: Date)
    requires ValidDate(a) && ValidDate(b)
    requires FormatDate(a) == FormatDate(b)
    ensures a == b
  {
    LexLessIrreflexive(FormatDate(a));
    FormatDateOrder(a, b);
    FormatDateOrder(b, a);
  }

  lemma FormatTimeInjective(s: Instant, t: Instant)
    requires ValidInstant(s) && ValidInstant(t)
    requires FormatTime(s) == FormatTime(t)
    ensures s.hour == t.hour && s.minute == t.minute && s.second == t.second
  {
    var fs, ft := FormatTime(s), FormatTime(t);
    assert fs[..2] == Digits(s.hour, 2) && ft[..2] == Digits(t.hour, 2);
    assert fs[3..5] == Digits(s.minute, 2) && ft[3..5] == Digits(t.minute, 2);
    assert fs[6..] == Digits(s.second, 2) && ft[6..] == Digits(t.second, 2);
    DigitsInjective(s.hour, t.hour, 2);
    DigitsInjective(s.minute, t.minute, 2);
    DigitsInjective(s.second, t.second, 2);
  }
}
