/** The movable dates of the holiday calendar, against the calendar itself
    (backend/data/venues.py:28-56). Days are counted as in the proleptic Gregorian calendar, day 1
    being 1 January of year 1; weekday 0 is Monday. */
module Holidays {
  const MONDAY := 0
  const SUNDAY := 6

  datatype Date = Date(year: int, month: int, day: int)

  predicate IsLeap(y: int) {
    y % 4 == 0 && (y % 100 != 0 || y % 400 == 0)
  }

  function DaysIn(y: int, m: int): int {
    if m == 2 then (if IsLeap(y) then 29 else 28) else if m in {4, 6, 9, 11} then 30 else 31
  }

  function DaysBeforeYear(y: int): int {
    365 * (y - 1) + (y - 1) / 4 - (y - 1) / 100 + (y - 1) / 400
  }

  function DaysBeforeMonth(y: int, m: int): int
    requires 1 <= m <= 12
    decreases m
  {
    if m == 1 then 0 else DaysBeforeMonth(y, m - 1) + DaysIn(y, m - 1)
  }

  predicate IsDate(d: Date) {
    d.year >= 1 && 1 <= d.month <= 12 && 1 <= d.day <= DaysIn(d.year, d.month)
  }

  function Ordinal(d: Date): int
    requires 1 <= d.month <= 12
  {
    DaysBeforeYear(d.year) + DaysBeforeMonth(d.year, d.month) + d.day
  }

  function Weekday(ordinal: int): int {
    (ordinal + 6) % 7
  }

  function NextDay(d: Date): Date {
    if d.day < DaysIn(d.year, d.month) then d.(day := d.day + 1)
    else if d.month < 12 then Date(d.year, d.month + 1, 1)
    else Date(d.year + 1, 1, 1)
  }

  /** Ordinals count the calendar's days one by one, from Monday 1 January of year 1. */
  lemma OrdinalCounts(d: Date)
    requires IsDate(d)
    ensures IsDate(NextDay(d)) && Ordinal(NextDay(d)) == Ordinal(d) + 1
    ensures Ordinal(Date(1, 1, 1)) == 1 && Weekday(1) == MONDAY
  {
    YearEnds(d.year);
    YearLength(d.year);
    assert DaysBeforeYear(1) == 0 && DaysBeforeMonth(1, 1) == 0;
    hide DaysBeforeYear, IsLeap;
  }

  lemma YearEnds(y: int)
    ensures DaysBeforeYear(y + 1) == DaysBeforeYear(y) + (if IsLeap(y) then 366 else 365)
  {
    YearBefore(y);
    CenturyRule(y);
    hide IsLeap;
  }

  lemma CenturyRule(y: int)
    ensures (if IsLeap(y) then 1 else 0)
            == (if y % 4 == 0 then 1 else 0) - (if y % 100 == 0 then 1 else 0) + (if y % 400 == 0 then 1 else 0)
  {
    if y % 400 == 0 {
      assert y == 100 * (4 * (y / 400));
    }
    if y % 100 == 0 {
      assert y == 4 * (25 * (y / 100));
    }
  }

  lemma YearLength(y: int)
    ensures DaysBeforeMonth(y, 12) + 31 == if IsLeap(y) then 366 else 365
  {
    MarchStart(y);
    assert DaysBeforeMonth(y, 8) == DaysBeforeMonth(y, 4) + 122;
    assert DaysBeforeMonth(y, 12) == DaysBeforeMonth(y, 8) + 122;
  }

  // -- weekdays of a month --------------------------------------------------------------------

  function NthWeekday(year: int, month: int, weekday: int, nth: int): int
    requires 1 <= month <= 12
  {
    var first := Ordinal(Date(year, month, 1));
    first + (weekday - Weekday(first)) % 7 + 7 * (nth - 1)
  }

  function VictoriaDay(year: int): int {
    var may24 := Ordinal(Date(year, 5, 24));
    may24 - Weekday(may24)
  }

  /** Exactly one day has the weekday and lies in the nth week counted from the first of the month. */
  lemma NthWeekdayIs(year: int, month: int, weekday: int, nth: int, day: int)
    requires 1 <= month <= 12 && 0 <= weekday < 7
    ensures var first := Ordinal(Date(year, month, 1));
            day == NthWeekday(year, month, weekday, nth)
            <==> Weekday(day) == weekday && first + 7 * (nth - 1) <= day < first + 7 * nth
  {
    var first := Ordinal(Date(year, month, 1));
    assert NthWeekday(year, month, weekday, nth) == first + (weekday - Weekday(first)) % 7 + 7 * (nth - 1);
    hide Ordinal, NthWeekday;
    WeeksLater(first, nth - 1);
    hide Weekday;
    OneDayAWeek(first + 7 * (nth - 1), weekday, day);
  }

  lemma WeeksLater(day: int, weeks: int)
    ensures Weekday(day + 7 * weeks) == Weekday(day)
  {
  }

  /** Any seven consecutive days hold each weekday once. */
  lemma OneDayAWeek(start: int, weekday: int, day: int)
    requires 0 <= weekday < 7
    ensures day == start + (weekday - Weekday(start)) % 7
            <==> Weekday(day) == weekday && start <= day < start + 7
  {
  }

  lemma VictoriaDayIs(year: int, day: int)
    ensures var may24 := Ordinal(Date(year, 5, 24));
            day == VictoriaDay(year) <==> Weekday(day) == MONDAY && may24 - 7 < day <= may24
  {
    hide Ordinal;
  }

  // -- Easter -----------------------------------------------------------------------------------

  /** The moon's age term of the computus: the full moon falls h days after 21 March, but for the
      two exceptions below. */
  function MoonTerm(year: int): int {
    var a, b := year % 19, year / 100;
    var d, f := b / 4, (b + 8) / 25;
    var g := (b - f + 1) / 3;
    (19 * a + b - d - g + 15) % 30
  }

  function SundayTerm(year: int): int {
    var b, c := year / 100, year % 100;
    var e, i, k := b % 4, c / 4, c % 4;
    (32 + 2 * e + 2 * i - MoonTerm(year) - k) % 7
  }

  function EasterSunday(year: int): Date {
    var a, h, l := year % 19, MoonTerm(year), SundayTerm(year);
    var m := (a + 11 * h + 22 * l) / 451;
    var total := h + l - 7 * m + 114;
    Date(year, total / 31, total % 31 + 1)
  }

  // -- the ecclesiastical moon, reckoned from the epact -------------------------------------------

  function GoldenNumber(year: int): int {
    year % 19 + 1
  }

  /** Leap days the century years have dropped since the Julian calendar. */
  function SolarCorrection(year: int): int {
    3 * (year / 100 + 1) / 4 - 12
  }

  /** Days the nineteen-year cycle has lost against the moon: eight in 2500 years. */
  function LunarCorrection(year: int): int {
    (8 * (year / 100 + 1) + 5) / 25 - 5
  }

  /** The Gregorian epact, the age of the moon on 1 January, with its two exceptional values moved on. */
  function Epact(year: int): int {
    var epact := (11 * GoldenNumber(year) + 20 + LunarCorrection(year) - SolarCorrection(year)) % 30;
    if epact == 24 || (epact == 25 && GoldenNumber(year) > 11) then epact + 1 else epact
  }

  /** The first full moon of the calendar on or after 21 March, as a day of March. */
  function FullMoonOfMarch(year: int): int {
    var n := 44 - Epact(year);
    if n < 21 then n + 30 else n
  }

  function PaschalFullMoon(year: int): int {
    Ordinal(Date(year, 3, 1)) + FullMoonOfMarch(year) - 1
  }

  lemma CenturyTerms(b: int)
    ensures 3 * (b + 1) / 4 == b - b / 4
    ensures (8 * (b + 1) + 5) / 25 == (b - (b + 8) / 25 + 1) / 3
  {
  }

  /** The computus and the epact name the same moon, in the exceptional years as well. */
  lemma MoonTermIsEpact(year: int)
    ensures var h := MoonTerm(year);
            FullMoonOfMarch(year) - 21 == if h == 29 then 28 else if h == 28 && year % 19 > 10 then 27 else h
  {
    var a, b := year % 19, year / 100;
    var d, g := b / 4, (b - (b + 8) / 25 + 1) / 3;
    CenturyTerms(b);
    Complement(11 * a + 38 + g - b + d, 19 * a + b - d - g + 15, a);
  }

  lemma Complement(e: int, h: int, a: int)
    requires e + h == 30 * a + 53
    ensures h % 30 == if e % 30 <= 23 then 23 - e % 30 else 53 - e % 30
  {
  }

  /** Days from 22 March to Easter. */
  function Offset(year: int): int {
    var a, h, l := year % 19, MoonTerm(year), SundayTerm(year);
    h + l - 7 * ((a + 11 * h + 22 * l) / 451)
  }

  /** The division by 451 is the correction of exactly the two exceptional cases. */
  lemma CorrectionIs(a: int, h: int, l: int)
    requires 0 <= a < 19 && 0 <= h < 30 && 0 <= l < 7
    ensures (a + 11 * h + 22 * l) / 451 == if l == 6 && (h == 29 || (h == 28 && a > 10)) then 1 else 0
  {
  }

  lemma OffsetBounds(year: int)
    ensures 0 <= Offset(year) <= 34
    ensures Offset(year) == MoonTerm(year) + SundayTerm(year) || Offset(year) == MoonTerm(year) + SundayTerm(year) - 7
    ensures var h, a := MoonTerm(year), year % 19;
            var age := if h == 29 then 28 else if h == 28 && a > 10 then 27 else h;
            age <= Offset(year) <= age + 6
  {
    CorrectionIs(year % 19, MoonTerm(year), SundayTerm(year));
    hide MoonTerm, SundayTerm;
  }

  lemma DateOfOffset(year: int)
    ensures var d := EasterSunday(year);
            && d.year == year
            && (Offset(year) <= 9 ==> d.month == 3 && d.day == 22 + Offset(year))
            && (Offset(year) > 9 ==> d.month == 4 && d.day == Offset(year) - 9)
  {
    OffsetBounds(year);
    hide MoonTerm, SundayTerm;
  }

  lemma MarchStart(year: int)
    ensures DaysBeforeMonth(year, 3) == if IsLeap(year) then 60 else 59
    ensures DaysBeforeMonth(year, 4) == DaysBeforeMonth(year, 3) + 31
  {
    assert DaysBeforeMonth(year, 2) == 31 + DaysBeforeMonth(year, 1);
  }

  /** Counting years by their centuries and leap cycles. */
  lemma LeapDays(year: int, b: int, c: int, d: int, e: int, i: int, k: int)
    requires year == 100 * b + c && 0 <= c < 100 && b == 4 * d + e && 0 <= e < 4 && c == 4 * i + k && 0 <= k < 4
    ensures DaysBeforeYear(year) + (if IsLeap(year) then 1 else 0)
            == 365 * (year - 1) + 25 * b + i - b + d
  {
    assert year / 4 == 25 * b + i && year / 100 == b && year / 400 == d;
    assert year % 4 == k && year % 100 == c && year % 400 == 100 * e + c;
    YearBefore(year);
  }

  lemma YearBefore(year: int)
    ensures (year - 1) / 4 == year / 4 - (if year % 4 == 0 then 1 else 0)
    ensures (year - 1) / 100 == year / 100 - (if year % 100 == 0 then 1 else 0)
    ensures (year - 1) / 400 == year / 400 - (if year % 400 == 0 then 1 else 0)
  {
  }

  /** 22 March and the Sunday term always meet on a Sunday. */
  lemma SundayMeets(year: int)
    ensures (Ordinal(Date(year, 3, 22)) + MoonTerm(year) + SundayTerm(year)) % 7 == 0
  {
    var b, c := year / 100, year % 100;
    var d, e, i, k := b / 4, b % 4, c / 4, c % 4;
    var h := MoonTerm(year);
    LeapDays(year, b, c, d, e, i, k);
    MarchStart(year);
    var raw := 32 + 2 * e + 2 * i - h - k;
    var start := Ordinal(Date(year, 3, 22));
    SplitYear(year, b, c, d, e, i, k);
    hide MoonTerm, DaysBeforeYear, DaysBeforeMonth, IsLeap;
    assert start == 365 * (year - 1) + 25 * b + i - b + d + 81;
    assert SundayTerm(year) == raw % 7;
    hide SundayTerm, Ordinal;
    SevenDivides(d, e, i, k, start + raw + h);
    WholeWeeks(start + h, raw);
  }

  lemma SplitYear(year: int, b: int, c: int, d: int, e: int, i: int, k: int)
    requires b == year / 100 && c == year % 100 && d == b / 4 && e == b % 4 && i == c / 4 && k == c % 4
    ensures year == 100 * b + c && b == 4 * d + e && c == 4 * i + k
  {
  }

  lemma WholeWeeks(x: int, raw: int)
    ensures (x + raw % 7) % 7 == (x + raw) % 7
  {
  }

  lemma SevenDivides(d: int, e: int, i: int, k: int, total: int)
    requires total == 365 * (400 * d + 100 * e + 4 * i + k - 1) + 24 * (4 * d + e) + i + d + 81 + 32 + 2 * e + 2 * i - k
    ensures total % 7 == 0
  {
    var weeks := 20_871 * d + 5_218 * e + 209 * i + 52 * k - 36;
    assert total == 7 * weeks;
    SevenTimes(weeks);
  }

  lemma SevenTimes(weeks: int)
    ensures (7 * weeks) % 7 == 0
  {
  }

  /** For every year the computus gives a real date from 22 March to 25 April that is a Sunday, and the
      first Sunday after the paschal full moon. */
  lemma EasterIsSunday(year: int)
    requires year >= 1
    ensures var easter := EasterSunday(year);
            && IsDate(easter) && easter.year == year
            && ((easter.month == 3 && easter.day >= 22) || (easter.month == 4 && easter.day <= 25))
            && Weekday(Ordinal(easter)) == SUNDAY
            && PaschalFullMoon(year) < Ordinal(easter) <= PaschalFullMoon(year) + 7
  {
    OffsetBounds(year);
    DateOfOffset(year);
    SundayMeets(year);
    MoonTermIsEpact(year);
    hide Epact, FullMoonOfMarch, SundayTerm, Offset, DaysBeforeYear, DaysBeforeMonth, IsLeap, Weekday;
    var start := Ordinal(Date(year, 3, 22));
    var easter := EasterSunday(year);
    OrdinalOfOffset(year, easter);
    assert PaschalFullMoon(year) + 1 - start <= Offset(year) <= PaschalFullMoon(year) + 7 - start;
    hide PaschalFullMoon, MoonTerm, EasterSunday, Ordinal;
    SundayPlus(start, MoonTerm(year), SundayTerm(year), Offset(year));
  }

  lemma OrdinalOfOffset(year: int, easter: Date)
    requires easter.year == year && 0 <= Offset(year)
    requires Offset(year) <= 9 ==> easter.month == 3 && easter.day == 22 + Offset(year)
    requires Offset(year) > 9 ==> easter.month == 4 && easter.day == Offset(year) - 9
    ensures 1 <= easter.month <= 12 && Ordinal(easter) == Ordinal(Date(year, 3, 22)) + Offset(year)
  {
    MarchStart(year);
    hide Offset, DaysBeforeMonth, DaysBeforeYear, IsLeap;
  }

  lemma SundayPlus(start: int, h: int, l: int, offset: int)
    requires (start + h + l) % 7 == 0 && (offset == h + l || offset == h + l - 7)
    ensures Weekday(start + offset) == SUNDAY
  {
  }
}
