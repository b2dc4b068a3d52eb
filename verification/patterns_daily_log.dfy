/** The daily-log pattern: one text channel per day from `daysBehind` days
    before today to `daysAhead` days after it, named with the day's ISO
    calendar date (YYYY-MM-DD). */
module PatternsDailyLog {
  import opened Outcomes
  import opened Exceptions
  import opened Text
  import opened Types
  import opened Calendar
  import opened TemplatesChannel
  import opened DateWindow

  datatype DailyLogPattern = DailyLogPattern(daysAhead: int := 1, daysBehind: int := 7,
                                             topic: Option<string> := Some("Daily conversation log"))

  /** Up to 30 days ahead and 90 days behind. */
  predicate Valid(p: DailyLogPattern)
  {
    0 <= p.daysAhead <= 30 && 0 <= p.daysBehind <= 90
  }

  function New(daysAhead: int := 1, daysBehind: int := 7, topic: Option<string> := Some("Daily conversation log"))
    : (r: Result<DailyLogPattern, Error>)
    ensures r.Ok? <==> 0 <= daysAhead <= 30 && 0 <= daysBehind <= 90
    ensures r.Ok? ==> r.value == DailyLogPattern(daysAhead, daysBehind, topic)
    ensures r.Err? ==> r.error.kind == ValueError
  {
    var p := DailyLogPattern(daysAhead, daysBehind, topic);
    if Valid(p) then Ok(p) else Err(Raise(ValueError, "validation error for DailyLogPattern"))
  }

  /** An ISO calendar date is a valid channel name. */
  lemma IsoDateIsChannelName(s: string)
    requires IsoDateShape(s)
    ensures IsChannelName(s)
  {
    DigitsAndDashes(s);
  }

  /** The rendering of every representable day is a valid channel name. */
  lemma NamesValid(clock: Clock, start: int, end: int)
    requires Lawful(clock) && InRange(start) && InRange(end) && start <= end
    ensures forall i :: 0 <= i < end - start + 1 ==> IsChannelName(DayNames(clock, start, end)[i])
  {
    forall i | 0 <= i < end - start + 1
      ensures IsChannelName(DayNames(clock, start, end)[i])
    {
      IsoDateIsChannelName(clock.isoformat(start + i));
    }
  }

  /** The ISO calendar dates of the days start to end. */
  function DayNames(clock: Clock, start: int, end: int): (names: seq<string>)
    requires start <= end
    ensures |names| == end - start + 1
    ensures forall i :: 0 <= i < |names| ==> names[i] == clock.isoformat(start + i)
  {
    seq(end - start + 1, i => clock.isoformat(start + i))
  }

  /** What `generate` returns for the day `today`: daysBehind + daysAhead
      + 1 consecutive days, oldest first, with today's channel at index
      daysBehind; or the error it raises. */
  function Generated(p: DailyLogPattern, today: int, clock: Clock): (r: Result<seq<ChannelTemplate>, Error>)
    requires Valid(p)
    ensures r.Ok? <==> InRange(today - p.daysBehind) && today + p.daysAhead < MaxOrdinal && ValidTopic(p.topic)
    ensures r.Err? && ValidTopic(p.topic) ==> r.error == Overflow()
    ensures r.Ok? ==> |r.value| == p.daysBehind + p.daysAhead + 1
                      && r.value[p.daysBehind] == TextChannelTemplate(clock.isoformat(today), p.topic, None)
                      && forall i :: 0 <= i < |r.value| ==> r.value[i].name == clock.isoformat(today - p.daysBehind + i)
  {
    var start := today - p.daysBehind;
    var end := today + p.daysAhead;
    if !InRange(start) || !InRange(end) then Err(Overflow())
    else WindowTemplates(start, end, DayNames(clock, start, end), p.topic)
  }

  method Generate(p: DailyLogPattern, today: int, clock: Clock) returns (r: Result<seq<ChannelTemplate>, Error>)
    requires Valid(p) && InRange(today) && Lawful(clock)
    ensures r == Generated(p, today, clock)
  {
    var start := today - p.daysBehind;
    var end := today + p.daysAhead;
    if !InRange(start) || !InRange(end) {
      return Err(Overflow());
    }
    var names := DayNames(clock, start, end);
    NamesValid(clock, start, end);
    r := GenerateDays(start, end, names, p.topic);
  }

  /** No two generated channels share a name. */
  lemma {:induction false} NamesDistinct(p: DailyLogPattern, today: int, clock: Clock)
    requires Valid(p) && Lawful(clock)
    ensures var r := Generated(p, today, clock);
      r.Ok? ==> forall i, j :: 0 <= i < j < |r.value| ==> r.value[i].name != r.value[j].name
  {
    var r := Generated(p, today, clock);
    if r.Ok? {
      var start := today - p.daysBehind;
      var names := DayNames(clock, start, today + p.daysAhead);
      assert r == WindowTemplates(start, today + p.daysAhead, names, p.topic);
      DistinctDates(clock, start, today + p.daysAhead);
    }
  }

  /** The days from start to end have distinct calendar dates. */
  lemma DistinctDates(clock: Clock, start: int, end: int)
    requires Lawful(clock) && InRange(start) && InRange(end) && start <= end
    ensures var names := DayNames(clock, start, end);
      forall i, j :: 0 <= i < j < |names| ==> names[i] != names[j]
  {
    var names := DayNames(clock, start, end);
    forall i, j | 0 <= i < j < |names|
      ensures names[i] != names[j]
    {
      IsoformatInjective(clock, start + i, start + j);
    }
  }

  /** With no days ahead or behind, the pattern yields today's channel
      alone. */
  lemma TodayOnly(topic: Option<string>, today: int, clock: Clock)
    requires InRange(today) && today < MaxOrdinal && ValidTopic(topic)
    ensures Generated(DailyLogPattern(0, 0, topic), today, clock) == Ok([TextChannelTemplate(clock.isoformat(today), topic, None)])
  {
    var r := Generated(DailyLogPattern(0, 0, topic), today, clock);
    assert r.value == [TextChannelTemplate(clock.isoformat(today), topic, None)];
  }
}
