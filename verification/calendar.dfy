/** Calendar days for the date-window generators. A day is its proleptic
    Gregorian ordinal (day 1 is 0001-01-01, a Monday), as `date.toordinal`
    numbers it, so "one day later" is "+ 1". The ISO 8601 renderings a date
    offers, `isoformat()` (the calendar date extended format YYYY-MM-DD of
    section 4.1.2.2 of ISO 8601:2004) and `isocalendar()` (the week date of
    section 4.1.4, Monday = 1), are not computed here: they are passed in as
    a `Clock`, and the laws of those renderings that the generators rely on
    are stated by `Lawful`. */
module Calendar {
  import opened Text

  /** The ordinal of 9999-12-31, the last representable date. */
  const MaxOrdinal: int := 3652059

  predicate InRange(d: int)
  {
    1 <= d <= MaxOrdinal
  }

  /** `date.weekday()`: Monday is 0 and Sunday is 6. */
  function Weekday(d: int): (w: int)
    ensures 0 <= w < 7
  {
    (d + 6) % 7
  }

  /** Weekdays advance by one, modulo 7, from one day to the next. */
  lemma WeekdayShift(d: int, k: nat)
    ensures Weekday(d + k) == (Weekday(d) + k) % 7
  {
    var q := (d + 6) / 7;
    assert d + 6 == 7 * q + Weekday(d);
    assert d + k + 6 == 7 * q + (Weekday(d) + k);
    ModSevenShift(q, Weekday(d) + k);
  }

  lemma ModSevenShift(q: int, x: int)
    ensures (7 * q + x) % 7 == x % 7
  {
  }

  /** The ISO 8601 week date of a day. */
  datatype IsoDate = IsoDate(year: int, week: int, weekday: int)

  /** The two ISO 8601 renderings of a day, with the parsers that read each
    rendering back (`date.fromisoformat`, `date.fromisocalendar`). */
  datatype Clock = Clock(isoformat: int -> string, isocalendar: int -> IsoDate,
                         fromisoformat: string -> int, fromisocalendar: IsoDate -> int)

  /** `isoformat()` renders as four digits, '-', two digits, '-', two
      digits. */
  predicate IsoDateShape(s: string)
  {
    |s| == 10 && s[4] == '-' && s[7] == '-'
    && forall i :: 0 <= i < 10 && i != 4 && i != 7 ==> IsDigit(s[i])
  }

  /** The properties of the ISO renderings the generators depend on, for
      every representable day: the calendar date has the extended-format
      shape and reads back as the same day; the week date also reads back
      as the same day and has an ISO year from 1 to 9999, a week number between
      1 and 53, and a weekday number one above `Weekday`. */
  ghost predicate Lawful(clock: Clock)
  {
    && (forall d :: InRange(d) ==> IsoDateShape(clock.isoformat(d)))
    && (forall d :: InRange(d) ==> clock.fromisoformat(clock.isoformat(d)) == d)
    && (forall d :: InRange(d) ==> clock.fromisocalendar(clock.isocalendar(d)) == d)
    && (forall d :: InRange(d) ==> 1 <= clock.isocalendar(d).year <= 9999)
    && (forall d :: InRange(d) ==> 1 <= clock.isocalendar(d).week <= 53)
    && (forall d :: InRange(d) ==> clock.isocalendar(d).weekday == Weekday(d) + 1)
  }

  /** Distinct representable days have distinct calendar dates. */
  lemma IsoformatInjective(clock: Clock, d: int, e: int)
    requires Lawful(clock) && InRange(d) && InRange(e) && d != e
    ensures clock.isoformat(d) != clock.isoformat(e)
  {
    assert clock.fromisoformat(clock.isoformat(d)) == d;
  }

  /** Distinct representable days have distinct week dates. */
  lemma IsocalendarInjective(clock: Clock, d: int, e: int)
    requires Lawful(clock) && InRange(d) && InRange(e) && d != e
    ensures clock.isocalendar(d) != clock.isocalendar(e)
  {
    assert clock.fromisocalendar(clock.isocalendar(d)) == d;
  }

  /** Consecutive days advance the ISO weekday number by one, from 7 back
      to 1. */
  lemma IsoWeekdayStep(clock: Clock, d: int)
    requires Lawful(clock) && InRange(d) && InRange(d + 1)
    ensures clock.isocalendar(d + 1).weekday == clock.isocalendar(d).weekday % 7 + 1
  {
    WeekdayShift(d, 1);
  }
}
