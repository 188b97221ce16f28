/**
 * `checkHoliday`: the service does not run at weekends or on the public
 * holidays of 2025. The calendar is reduced to its two answers, the weekday
 * number (1 is Sunday, 7 is Saturday) and today's date written "yyyy-MM-dd".
 */
module Holidays {
  import opened Wrappers
  import opened TimeOfDay

  /** The public holidays the service observes, five to a line as `publicHolidays` lists them. */
  const HolidaysLine1: seq<string> := ["2025-01-01", "2025-01-13", "2025-02-11", "2025-02-23", "2025-03-20"]
  const HolidaysLine2: seq<string> := ["2025-04-29", "2025-05-03", "2025-05-04", "2025-05-05", "2025-07-21"]
  const HolidaysLine3: seq<string> := ["2025-08-11", "2025-09-15", "2025-09-23", "2025-10-13", "2025-11-03"]
  const HolidaysLine4: seq<string> := ["2025-11-23", "2025-12-23"]

  /** `publicHolidays`: the seventeen dates in the order listed. */
  const PublicHolidays: seq<string> := HolidaysLine1 + HolidaysLine2 + HolidaysLine3 + HolidaysLine4

  /** A weekday as the Gregorian calendar numbers it: 1 is Sunday, 7 is Saturday. */
  type Weekday = d: int | 1 <= d <= 7 witness 1

  const Sunday: Weekday := 1
  const Saturday: Weekday := 7

  /** Why the service is suspended today; each reason has its own message. */
  datatype Suspension = Weekend | PublicHoliday

  /** The value `checkHoliday` leaves in `holidayMessage`: the weekend reason first, then the holiday list. */
  function SuspensionFor(weekday: Weekday, today: string): (s: Option<Suspension>)
    ensures s == Some(Weekend) <==> weekday == Sunday || weekday == Saturday
    ensures s == Some(PublicHoliday) <==> weekday != Sunday && weekday != Saturday && today in PublicHolidays
    ensures s == None <==> Sunday < weekday < Saturday && today !in PublicHolidays
  {
    if weekday == Sunday || weekday == Saturday then Some(Weekend)
    else if today in PublicHolidays then Some(PublicHoliday)
    else None
  }

  /** The weekend reason wins even on a date the holiday list names. */
  lemma WeekendTakesPrecedence(weekday: Weekday, today: string)
    requires weekday == Sunday || weekday == Saturday
    requires today in PublicHolidays
    ensures SuspensionFor(weekday, today) == Some(Weekend)
  {
  }

  /** The service runs on a weekday exactly when the date is not in the list. */
  lemma RunsOnWorkingDays(weekday: Weekday, today: string)
    requires Sunday < weekday < Saturday
    ensures SuspensionFor(weekday, today).None? <==> today !in PublicHolidays
  {
  }

  /** The number of days in a month of 2025, which is not a leap year. */
  function DaysInMonth2025(month: int): (days: int)
    requires 1 <= month <= 12
    ensures 28 <= days <= 31
  {
    if month == 2 then 28
    else if month == 4 || month == 6 || month == 9 || month == 11 then 30
    else 31
  }

  /** The value of the two decimal digits of `d` at `i` and `i + 1`. */
  function TwoDigitsAt(d: string, i: nat): int
    requires i + 1 < |d| && IsDigit(d[i]) && IsDigit(d[i + 1])
  {
    DigitValue(d[i]) * 10 + DigitValue(d[i + 1])
  }

  /** `d` is a day of the 2025 calendar written "yyyy-MM-dd". */
  predicate IsDateOf2025(d: string)
  {
    && |d| == 10
    && d[0] == '2' && d[1] == '0' && d[2] == '2' && d[3] == '5' && d[4] == '-' && d[7] == '-'
    && IsDigit(d[5]) && IsDigit(d[6]) && IsDigit(d[8]) && IsDigit(d[9])
    && 1 <= TwoDigitsAt(d, 5) <= 12
    && 1 <= TwoDigitsAt(d, 8) <= DaysInMonth2025(TwoDigitsAt(d, 5))
  }

  /** Every listed holiday is a day of the 2025 calendar written "yyyy-MM-dd". */
  lemma HolidaysAreDatesOf2025()
    ensures forall d | d in PublicHolidays :: IsDateOf2025(d)
  {
    Line1AreDates();
    Line2AreDates();
    Line3AreDates();
    Line4AreDates();
  }

  // One lemma per listed line: each proof reads only the five dates it needs.
  lemma Line1AreDates() ensures forall d | d in HolidaysLine1 :: IsDateOf2025(d) {}
  lemma Line2AreDates() ensures forall d | d in HolidaysLine2 :: IsDateOf2025(d) {}
  lemma Line3AreDates() ensures forall d | d in HolidaysLine3 :: IsDateOf2025(d) {}
  lemma Line4AreDates() ensures forall d | d in HolidaysLine4 :: IsDateOf2025(d) {}

  /** Coming of Age Day (13 January 2025) falls on a Monday and stops the service. */
  lemma ComingOfAgeDaySuspends()
    ensures SuspensionFor(2, "2025-01-13") == Some(PublicHoliday)
  {
  }
}
