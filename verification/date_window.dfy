/** The day-by-day loop the date patterns share: starting from the first
    day of a window, build one text-channel template per day up to and
    including the last day, then step one day further. Building a template
    fails when the pattern's topic is over 1024 characters, and stepping
    past 9999-12-31 raises an OverflowError. */
module DateWindow {
  import opened Outcomes
  import opened Exceptions
  import opened Types
  import opened Calendar
  import opened TemplatesChannel

  function Overflow(): Error
  {
    Raise(OverflowError, "date value out of range")
  }

  /** The templates the loop builds for the window [start, end], where
      `names[i]` is the name of day start + i: the i-th template carries
      that name, the topic and no position. */
  function WindowTemplates(start: int, end: int, names: seq<string>, topic: Option<string>)
    : (r: Result<seq<ChannelTemplate>, Error>)
    requires start <= end && |names| == end - start + 1
    ensures r.Ok? <==> ValidTopic(topic) && end < MaxOrdinal
    ensures r.Ok? ==> |r.value| == |names|
    ensures r.Ok? ==> forall i :: 0 <= i < |r.value| ==> r.value[i] == TextChannelTemplate(names[i], topic, None)
  {
    if !ValidTopic(topic) then Err(Invalid("TextChannelTemplate"))
    else if end == MaxOrdinal || end > MaxOrdinal then Err(Overflow())
    else Ok(seq(|names|, i requires 0 <= i < |names| => TextChannelTemplate(names[i], topic, None)))
  }

  method GenerateDays(start: int, end: int, names: seq<string>, topic: Option<string>)
    returns (r: Result<seq<ChannelTemplate>, Error>)
    requires InRange(start) && InRange(end) && start <= end && |names| == end - start + 1
    requires forall i :: 0 <= i < |names| ==> IsChannelName(names[i])
    ensures r == WindowTemplates(start, end, names, topic)
  {
    var channels: seq<ChannelTemplate> := [];
    var current := start;
    while current <= end
      invariant start <= current <= end + 1 && current <= MaxOrdinal
      invariant |channels| == current - start
      invariant forall i :: 0 <= i < |channels| ==> channels[i] == TextChannelTemplate(names[i], topic, None)
      invariant current > start ==> ValidTopic(topic)
    {
      var t := NewText(names[current - start], topic, None);
      if t.Err? {
        return Err(t.error);
      }
      channels := channels + [t.value];
      if current == MaxOrdinal {
        return Err(Overflow());
      }
      current := current + 1;
    }
    assert channels == seq(|names|, i requires 0 <= i < |names| => TextChannelTemplate(names[i], topic, None));
    return Ok(channels);
  }

  /** The first day of a window of whole weeks reaching `weeksBehind`
      weeks back: the Monday of today's week, that many weeks earlier. */
  function WeekStart(weeksBehind: int, today: int): int
  {
    today - (weeksBehind * 7 + Weekday(today))
  }

  /** The last day: the Sunday of today's week, `weeksAhead` weeks later. */
  function WeekEnd(weeksAhead: int, today: int): int
  {
    today + (weeksAhead * 7 + (6 - Weekday(today)))
  }

  /** The window runs from a Monday to a Sunday, holds today, and is
      `weeksBehind + weeksAhead + 1` whole weeks long. */
  lemma WholeWeeks(weeksAhead: nat, weeksBehind: nat, today: int)
    ensures WeekStart(weeksBehind, today) <= today <= WeekEnd(weeksAhead, today)
    ensures WeekEnd(weeksAhead, today) - WeekStart(weeksBehind, today) + 1 == 7 * (weeksBehind + weeksAhead + 1)
    ensures Weekday(WeekStart(weeksBehind, today)) == 0
    ensures Weekday(WeekEnd(weeksAhead, today)) == 6
  {
    var w := Weekday(today);
    var q := (today + 6) / 7;
    assert today + 6 == 7 * q + w;
    assert WeekStart(weeksBehind, today) + 6 == 7 * (q - weeksBehind);
    assert WeekEnd(weeksAhead, today) + 6 == 7 * (q + weeksAhead) + 6;
  }

  /** Today sits at index 7 * weeksBehind + its weekday of the window. */
  lemma TodayInWeeks(weeksAhead: nat, weeksBehind: nat, today: int)
    ensures WeekStart(weeksBehind, today) + (7 * weeksBehind + Weekday(today)) == today
    ensures 7 * weeksBehind + Weekday(today) < WeekEnd(weeksAhead, today) - WeekStart(weeksBehind, today) + 1
  {
  }

  /** In a window that starts on a Monday, the i-th day is weekday i mod 7. */
  lemma WeekdayInWindow(start: int, i: nat)
    requires Weekday(start) == 0
    ensures Weekday(start + i) == i % 7
  {
    WeekdayShift(start, i);
  }
}
