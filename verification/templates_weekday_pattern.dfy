/** The week-day pattern: one text channel per day of whole ISO weeks
    around today, named "WW-DD" after the ISO week number and the ISO
    weekday (Monday = 01). */
module TemplatesWeekdayPattern {
  import opened Outcomes
  import opened Exceptions
  import opened Text
  import opened Types
  import opened Calendar
  import opened TemplatesChannel
  import opened DateWindow

  datatype WeekDayPattern = WeekDayPattern(weeksAhead: int := 0, weeksBehind: int := 1,
                                           topic: Option<string> := Some("Weekly log channel"))

  /** Up to four weeks ahead and eight weeks behind. */
  predicate Valid(p: WeekDayPattern)
  {
    0 <= p.weeksAhead <= 4 && 0 <= p.weeksBehind <= 8
  }

  function New(weeksAhead: int := 0, weeksBehind: int := 1, topic: Option<string> := Some("Weekly log channel"))
    : (r: Result<WeekDayPattern, Error>)
    ensures r.Ok? <==> 0 <= weeksAhead <= 4 && 0 <= weeksBehind <= 8
    ensures r.Ok? ==> r.value == WeekDayPattern(weeksAhead, weeksBehind, topic)
    ensures r.Err? ==> r.error.kind == ValueError
  {
    var p := WeekDayPattern(weeksAhead, weeksBehind, topic);
    if Valid(p) then Ok(p) else Err(Raise(ValueError, "validation error for WeekDayPattern"))
  }

  /** f"{week:02d}-{weekday:02d}". */
  function DayName(iso: IsoDate): string
  {
    ZeroPad(IntToString(iso.week), 2) + "-" + ZeroPad(IntToString(iso.weekday), 2)
  }

  /** A one-digit number pads to "0" and its digit. */
  lemma PadOneDigit(n: nat)
    requires n < 10
    ensures ZeroPad(IntToString(n), 2) == ['0', DigitChar(n)]
  {
    assert IntToString(n) == [DigitChar(n)];
    assert ZeroPad([DigitChar(n)], 2) == ZeroPad(['0', DigitChar(n)], 2);
  }

  /** A number below 100 pads to two digits. */
  lemma PadTwoDigits(n: nat)
    requires n < 100
    ensures |ZeroPad(IntToString(n), 2)| == 2
    ensures forall i :: 0 <= i < 2 ==> IsDigit(ZeroPad(IntToString(n), 2)[i])
  {
    PaddedDigits(n, 2);
  }

  lemma DashedName(w: string, c: char)
    requires |w| == 2 && IsDigit(w[0]) && IsDigit(w[1]) && IsDigit(c)
    ensures var name := w + "-" + ['0', c];
      |name| == 5 && forall i :: 0 <= i < 5 ==> IsDigit(name[i]) || name[i] == '-'
  {
  }

  /** For a lawful week date the name is five characters, a valid channel
      name, and ends in "0" and the weekday digit. */
  lemma DayNameShape(iso: IsoDate)
    requires 1 <= iso.week <= 53 && 1 <= iso.weekday <= 7
    ensures IsChannelName(DayName(iso)) && |DayName(iso)| == 5
    ensures DayName(iso)[3..] == ['0', DigitChar(iso.weekday)]
  {
    var w := ZeroPad(IntToString(iso.week), 2);
    PadTwoDigits(iso.week);
    PadOneDigit(iso.weekday);
    var name := w + "-" + ['0', DigitChar(iso.weekday)];
    assert DayName(iso) == name;
    DashedName(w, DigitChar(iso.weekday));
    DigitsAndDashes(name);
  }

  /** The names of the days start to end. */
  function DayNames(clock: Clock, start: int, end: int): (names: seq<string>)
    requires start <= end
    ensures |names| == end - start + 1
    ensures forall i :: 0 <= i < |names| ==> names[i] == DayName(clock.isocalendar(start + i))
  {
    seq(end - start + 1, i => DayName(clock.isocalendar(start + i)))
  }

  lemma NameEndsInWeekday(n: string, iso: IsoDate, k: int)
    requires n == DayName(iso) && 1 <= iso.week <= 53 && iso.weekday == k && 1 <= k <= 7
    ensures n[3..] == ['0', DigitChar(k)]
  {
    DayNameShape(iso);
  }

  /** What `generate` returns for the day `today`: the error it raises, or
      the templates of the days from the window's Monday to its Sunday. */
  function Generated(p: WeekDayPattern, today: int, clock: Clock): (r: Result<seq<ChannelTemplate>, Error>)
    requires Valid(p)
    ensures r.Ok? <==> InRange(WeekStart(p.weeksBehind, today)) && WeekEnd(p.weeksAhead, today) < MaxOrdinal
                       && ValidTopic(p.topic)
    ensures (r.Err? && !ValidTopic(p.topic) && InRange(WeekStart(p.weeksBehind, today))
             && InRange(WeekEnd(p.weeksAhead, today))) ==> r.error.kind == ValueError
    ensures r.Err? && ValidTopic(p.topic) ==> r.error == Overflow()
  {
    var start := WeekStart(p.weeksBehind, today);
    var end := WeekEnd(p.weeksAhead, today);
    if !InRange(start) || !InRange(end) then Err(Overflow())
    else WindowTemplates(start, end, DayNames(clock, start, end), p.topic)
  }

  method Generate(p: WeekDayPattern, today: int, clock: Clock) returns (r: Result<seq<ChannelTemplate>, Error>)
    requires Valid(p) && InRange(today) && Lawful(clock)
    ensures r == Generated(p, today, clock)
  {
    var daysBehind := p.weeksBehind * 7 + Weekday(today);
    var daysAhead := p.weeksAhead * 7 + (6 - Weekday(today));
    var start := today - daysBehind;
    var end := today + daysAhead;
    if !InRange(start) || !InRange(end) {
      return Err(Overflow());
    }
    var names := DayNames(clock, start, end);
    forall i | 0 <= i < |names|
      ensures IsChannelName(names[i])
    {
      DayNameShape(clock.isocalendar(start + i));
    }
    r := GenerateDays(start, end, names, p.topic);
  }

  /** A generated list covers whole weeks, Monday first: it is
      7 * (weeksBehind + weeksAhead + 1) long and the i-th name ends in
      the weekday number (i mod 7) + 1. */
  lemma {:induction false} WeekdaysCycle(p: WeekDayPattern, today: int, clock: Clock)
    requires Valid(p) && Lawful(clock)
    ensures var r := Generated(p, today, clock);
      r.Ok? ==> |r.value| == 7 * (p.weeksBehind + p.weeksAhead + 1)
                && forall i :: 0 <= i < |r.value| ==> r.value[i].name[3..] == ['0', DigitChar(i % 7 + 1)]
  {
    var r := Generated(p, today, clock);
    if r.Ok? {
      var start := WeekStart(p.weeksBehind, today);
      var end := WeekEnd(p.weeksAhead, today);
      WholeWeeks(p.weeksAhead, p.weeksBehind, today);
      var names := DayNames(clock, start, end);
      assert r == WindowTemplates(start, end, names, p.topic);
      NamesCycle(clock, start, end);
    }
  }

  /** In a window starting on a Monday, the i-th name ends in the weekday
      number (i mod 7) + 1. */
  lemma NamesCycle(clock: Clock, start: int, end: int)
    requires Lawful(clock) && InRange(start) && InRange(end) && start <= end && Weekday(start) == 0
    ensures var names := DayNames(clock, start, end);
      forall i :: 0 <= i < |names| ==> names[i][3..] == ['0', DigitChar(i % 7 + 1)]
  {
    var names := DayNames(clock, start, end);
    forall i | 0 <= i < |names|
      ensures names[i][3..] == ['0', DigitChar(i % 7 + 1)]
    {
      NameInCycle(clock, start, i);
    }
  }

  /** The name of the i-th day from a Monday ends in the weekday number
      (i mod 7) + 1. */
  lemma NameInCycle(clock: Clock, start: int, i: nat)
    requires Lawful(clock) && InRange(start + i) && Weekday(start) == 0
    ensures DayName(clock.isocalendar(start + i))[3..] == ['0', DigitChar(i % 7 + 1)]
  {
    var iso := clock.isocalendar(start + i);
    assert iso.weekday == i % 7 + 1 && 1 <= iso.week <= 53 by {
      WeekdayInWindow(start, i);
    }
    NameEndsInWeekday(DayName(iso), iso, i % 7 + 1);
  }

  /** The i-th channel is named after the i-th day of the window, and every
      template is a text channel carrying the pattern's topic and no
      position. */
  lemma {:induction false} NamedByDay(p: WeekDayPattern, today: int, clock: Clock)
    requires Valid(p)
    ensures var r := Generated(p, today, clock);
      r.Ok? ==> |r.value| == WeekEnd(p.weeksAhead, today) - WeekStart(p.weeksBehind, today) + 1
                && forall i :: 0 <= i < |r.value| ==>
                  r.value[i] == TextChannelTemplate(DayName(clock.isocalendar(WeekStart(p.weeksBehind, today) + i)),
                                                    p.topic, None)
  {
    var start := WeekStart(p.weeksBehind, today);
    var end := WeekEnd(p.weeksAhead, today);
    var r := Generated(p, today, clock);
    if r.Ok? {
      assert r == WindowTemplates(start, end, DayNames(clock, start, end), p.topic);
      WindowNamedByDay(start, end, clock, p.topic);
    }
  }

  /** The templates of a window are text channels named after its days. */
  lemma WindowNamedByDay(start: int, end: int, clock: Clock, topic: Option<string>)
    requires start <= end
    ensures var r := WindowTemplates(start, end, DayNames(clock, start, end), topic);
      r.Ok? ==> |r.value| == end - start + 1
                && forall i :: 0 <= i < |r.value| ==>
                     r.value[i] == TextChannelTemplate(DayName(clock.isocalendar(start + i)), topic, None)
  {
  }

  /** Today's channel is in the list, at the position of today's weekday in
      the current week, after weeksBehind whole weeks. */
  lemma {:induction false} TodayIncluded(p: WeekDayPattern, today: int, clock: Clock)
    requires Valid(p)
    ensures var r := Generated(p, today, clock);
      var i := 7 * p.weeksBehind + Weekday(today);
      r.Ok? ==> i < |r.value| && WeekStart(p.weeksBehind, today) + i == today
                && r.value[i].name == DayName(clock.isocalendar(WeekStart(p.weeksBehind, today) + i))
  {
    var r := Generated(p, today, clock);
    if r.Ok? {
      TodayInWeeks(p.weeksAhead, p.weeksBehind, today);
      NamedByDay(p, today, clock);
    }
  }
}
