/**
 * The question of the day: a fixed pool of seven prompts, indexed by the
 * day of the year modulo seven. `Date` is a proleptic Gregorian calendar
 * date in local time; daylight-saving shifts are not modelled.
 */
module DailyQuestion {

  const Questions: seq<string> := [
    "¿Qué agradeces hoy?",
    "¿Qué te hizo sonreír?",
    "¿Qué aprendiste?",
    "¿Cuál fue el mejor momento de tu día?",
    "¿Qué te inspiró hoy?",
    "¿Cómo te cuidaste hoy?",
    "¿Qué te sorprendió hoy?"
  ]

  datatype Date = Date(year: int, month: int, day: int)

  predicate IsLeapYear(y: int) {
    y % 4 == 0 && (y % 100 != 0 || y % 400 == 0)
  }

  function DaysInYear(y: int): nat {
    if IsLeapYear(y) then 366 else 365
  }

  function DaysInMonth(y: int, m: int): nat
    requires 1 <= m <= 12
  {
    if m == 2 then (if IsLeapYear(y) then 29 else 28)
    else if m == 4 || m == 6 || m == 9 || m == 11 then 30
    else 31
  }

  predicate ValidDate(d: Date) {
    1 <= d.month <= 12 && 1 <= d.day <= DaysInMonth(d.year, d.month)
  }

  /** The number of days of year `y` before the first of month `m`; month
      `m` itself still fits in the year after them. */
  function DaysBeforeMonth(y: int, m: int): (n: nat)
    requires 1 <= m <= 12
    ensures m == 1 ==> n == 0
    ensures n + DaysInMonth(y, m) <= DaysInYear(y)
  {
    [0, 31, 59, 90, 120, 151, 181, 212, 243, 273, 304, 334][m - 1]
      + (if m > 2 && IsLeapYear(y) then 1 else 0)
  }

  /** The months lie end to end and fill the year exactly. */
  lemma MonthsFillYear(y: int, m: int)
    requires 1 <= m <= 12
    ensures m < 12 ==> DaysBeforeMonth(y, m) + DaysInMonth(y, m) == DaysBeforeMonth(y, m + 1)
    ensures m == 12 ==> DaysBeforeMonth(y, m) + DaysInMonth(y, m) == DaysInYear(y)
  {
  }

  /** The position of `d` in its year, January 1 being day 1. */
  function Ordinal(d: Date): (n: int)
    requires ValidDate(d)
    ensures 1 <= n <= DaysInYear(d.year)
  {
    DaysBeforeMonth(d.year, d.month) + d.day
  }

  const MsPerDay: nat := 24 * 60 * 60 * 1000

  /** `today - new Date(today.getFullYear(), 0, 0)`: the milliseconds from
      the midnight that starts December 31 of the previous year (month 0,
      day 0 of this year) until now, `msOfDay` being the part of today that
      has gone by. */
  function ElapsedMs(today: Date, msOfDay: int): nat
    requires ValidDate(today) && 0 <= msOfDay < MsPerDay
  {
    Ordinal(today) * MsPerDay + msOfDay
  }

  /** `Math.floor(elapsed / 1000 / 60 / 60 / 24)`: whole days elapsed, which
      is the ordinal of today whatever the time of day. */
  function DayOfYear(today: Date, msOfDay: int): (n: int)
    requires ValidDate(today) && 0 <= msOfDay < MsPerDay
    ensures n == Ordinal(today)
  {
    ElapsedMs(today, msOfDay) / MsPerDay
  }

  /** `dayOfYear % dailyQuestions.length`: always an index into the pool. */
  function QuestionIndex(today: Date, msOfDay: int): (i: int)
    requires ValidDate(today) && 0 <= msOfDay < MsPerDay
    ensures 0 <= i < |Questions|
  {
    DayOfYear(today, msOfDay) % |Questions|
  }

  /** The question shown by `setDailyQuestion`. */
  function TodaysQuestion(today: Date, msOfDay: int): (q: string)
    requires ValidDate(today) && 0 <= msOfDay < MsPerDay
    ensures q in Questions
  {
    Questions[QuestionIndex(today, msOfDay)]
  }

  /** The question depends on the calendar day only, not on the time. */
  lemma SameDaySameQuestion(today: Date, ms1: int, ms2: int)
    requires ValidDate(today) && 0 <= ms1 < MsPerDay && 0 <= ms2 < MsPerDay
    ensures TodaysQuestion(today, ms1) == TodaysQuestion(today, ms2)
  {
  }

  /** January 1 is day 1 of the year, so it shows the second question of
      the pool (index 1), not the first. */
  lemma NewYearShowsSecondQuestion(year: int, msOfDay: int)
    requires 0 <= msOfDay < MsPerDay
    ensures QuestionIndex(Date(year, 1, 1), msOfDay) == 1
    ensures TodaysQuestion(Date(year, 1, 1), msOfDay) == Questions[1]
  {
  }

  /** The calendar day after `d`. */
  function NextDay(d: Date): (n: Date)
    requires ValidDate(d)
    ensures ValidDate(n)
    ensures n.year == d.year ==> Ordinal(n) == Ordinal(d) + 1
    ensures n.year != d.year ==> n == Date(d.year + 1, 1, 1) && Ordinal(d) == DaysInYear(d.year)
  {
    MonthsFillYear(d.year, d.month);
    if d.day < DaysInMonth(d.year, d.month) then Date(d.year, d.month, d.day + 1)
    else if d.month < 12 then Date(d.year, d.month + 1, 1)
    else Date(d.year + 1, 1, 1)
  }

  /** Within a year the pool is walked one question per day, wrapping
      after the seventh. */
  lemma {:induction false} NextDayNextQuestion(d: Date, ms1: int, ms2: int)
    requires ValidDate(d) && 0 <= ms1 < MsPerDay && 0 <= ms2 < MsPerDay
    requires NextDay(d).year == d.year
    ensures QuestionIndex(NextDay(d), ms2) == (QuestionIndex(d, ms1) + 1) % |Questions|
  {
    var o := Ordinal(d);
    assert (o + 1) % 7 == (o % 7 + 1) % 7;
  }

  /** The rotation restarts on January 1 instead of running on: after a
      common year (365 = 52 * 7 + 1 days) December 31 and the next January 1
      show the same question. */
  lemma CommonYearEndRepeatsQuestion(year: int, ms1: int, ms2: int)
    requires !IsLeapYear(year) && 0 <= ms1 < MsPerDay && 0 <= ms2 < MsPerDay
    ensures QuestionIndex(Date(year, 12, 31), ms1) == QuestionIndex(Date(year + 1, 1, 1), ms2)
  {
  }
}
