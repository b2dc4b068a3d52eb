/** The year-qualified week-day pattern: one text channel per day of whole
    ISO weeks around today, named "YYYY-WW-0D" after the ISO year, the ISO
    week number and the ISO weekday (Monday = 1). */
module PatternsWeekday {
  import opened Outcomes
  import opened Exceptions
  import opened Text
  import opened Types
  import opened Calendar
  import opened TemplatesChannel
  import opened DateWindow

  datatype WeekDayPattern = WeekDayPattern(weeksAhead: int := 0, weeksBehind: int := 1,
                                           topic: Option<string> := Some("Weekly log channel"))

  /** Up to four weeks ahead and eight weeks behind. */
  predicate Valid(p: WeekDayPattern)
  {
    0 <= p.weeksAhead <= 4 && 0 <= p.weeksBehind <= 8
  }

  function New(weeksAhead: int := 0, weeksBehind: int := 1, topic: Option<string> := Some("Weekly log channel"))
    : (r: Result<WeekDayPattern, Error>)
    ensures r.Ok? <==> 0 <= weeksAhead <= 4 && 0 <= weeksBehind <= 8
    ensures r.Ok? ==> r.value == WeekDayPattern(weeksAhead, weeksBehind, topic)
    ensures r.Err? ==> r.error.kind == ValueError
  {
    var p := WeekDayPattern(weeksAhead, weeksBehind, topic);
    if Valid(p) then Ok(p) else Err(Raise(ValueError, "validation error for WeekDayPattern"))
  }

  /** f"{year}-{week:02d}-0{weekday}". */
  function DayName(iso: IsoDate): string
  {
    IntToString(iso.year) + "-" + ZeroPad(IntToString(iso.week), 2) + "-0" + IntToString(iso.weekday)
  }

  predicate LawfulIso(iso: IsoDate)
  {
    1 <= iso.year <= 9999 && 1 <= iso.week <= 53 && 1 <= iso.weekday <= 7
  }

  lemma DashedName(y: string, w: string, c: char)
    requires 1 <= |y| <= 4 && forall i :: 0 <= i < |y| ==> IsDigit(y[i])
    requires |w| == 2 && IsDigit(w[0]) && IsDigit(w[1]) && IsDigit(c)
    ensures var name := y + "-" + w + "-0" + [c];
      |name| == |y| + 6 && forall i :: 0 <= i < |name| ==> IsDigit(name[i]) || name[i] == '-'
  {
    var name := y + "-" + w + "-0" + [c];
    forall i | 0 <= i < |name|
      ensures IsDigit(name[i]) || name[i] == '-'
    {
      if i < |y| {
        assert name[i] == y[i];
      } else if i == |y| + 1 || i == |y| + 2 {
        assert name[i] == w[i - |y| - 1];
      }
    }
  }

  /** A lawful week date names a valid channel: its ISO year, a dash, the
      two-digit week, a dash, "0" and the weekday digit. */
  lemma DayNameShape(iso: IsoDate)
    requires LawfulIso(iso)
    ensures IsChannelName(DayName(iso))
    ensures DayName(iso) == Decimal(iso.year) + "-" + ZeroPad(Decimal(iso.week), 2) + "-0" + [DigitChar(iso.weekday)]
  {
    DayNameParts(iso);
    DayNameValid(Decimal(iso.year), ZeroPad(Decimal(iso.week), 2), DigitChar(iso.weekday)) by {
      PadTwoDigits(iso.week);
    }
  }

  lemma DayNameParts(iso: IsoDate)
    requires LawfulIso(iso)
    ensures DayName(iso) == Decimal(iso.year) + "-" + ZeroPad(Decimal(iso.week), 2) + "-0" + [DigitChar(iso.weekday)]
  {
    NatToString(iso.year);
    NatToString(iso.week);
    OneDigitToString(iso.weekday);
  }

  lemma DayNameValid(y: string, w: string, c: char)
    requires 1 <= |y| <= 4 && forall i :: 0 <= i < |y| ==> IsDigit(y[i])
    requires |w| == 2 && IsDigit(w[0]) && IsDigit(w[1]) && IsDigit(c)
    ensures IsChannelName(y + "-" + w + "-0" + [c])
  {
    DashedName(y, w, c);
    DigitsAndDashes(y + "-" + w + "-0" + [c]);
  }

  /** A number from 1 to 99 pads to two digits. */
  lemma PadTwoDigits(n: nat)
    requires n < 100
    ensures |ZeroPad(Decimal(n), 2)| == 2
    ensures IsDigit(ZeroPad(Decimal(n), 2)[0]) && IsDigit(ZeroPad(Decimal(n), 2)[1])
  {
    PaddedDigits(n, 2);
  }

  /** The parts of a name can be read back from fixed offsets. */
  lemma NameParts(y: string, w: string, c: char)
    requires |w| == 2
    ensures var n := y + "-" + w + "-0" + [c];
      |n| == |y| + 6 && n[..|y|] == y && n[|y| + 1..|y| + 3] == w && n[|y| + 5] == c
      && n[|n| - 3..] == ['-', '0', c]
  {
  }

  lemma NamePartsEqual(ya: string, wa: string, ca: char, yb: string, wb: string, cb: char)
    requires |wa| == 2 && |wb| == 2
    requires ya + "-" + wa + "-0" + [ca] == yb + "-" + wb + "-0" + [cb]
    ensures ya == yb && wa == wb && ca == cb
  {
    NameParts(ya, wa, ca);
    NameParts(yb, wb, cb);
  }

  /** The name ends in "-0" followed by the weekday number w. */
  predicate EndsInWeekday(n: string, w: nat)
    requires w < 10
  {
    |n| >= 3 && n[|n| - 3] == '-' && n[|n| - 2] == '0' && n[|n| - 1] == DigitChar(w)
  }

  /** A name ends in "-0" and the weekday digit. */
  lemma NameEndsInWeekday(iso: IsoDate)
    requires LawfulIso(iso)
    ensures EndsInWeekday(DayName(iso), iso.weekday)
  {
    var w := ZeroPad(IntToString(iso.week), 2);
    assert |w| == 2 by {
      NatToString(iso.week);
      PadTwoDigits(iso.week);
    }
    assert IntToString(iso.weekday) == [DigitChar(iso.weekday)] by {
      OneDigitToString(iso.weekday);
    }
    NameSuffix(IntToString(iso.year), w, DigitChar(iso.weekday));
  }

  lemma NameSuffix(y: string, w: string, c: char)
    ensures var n := y + "-" + w + "-0" + [c]; |n| >= 3 && n[|n| - 3] == '-' && n[|n| - 2] == '0' && n[|n| - 1] == c
  {
  }

  /** Distinct week dates get distinct names: the name reads back as its
      year, week and weekday. */
  lemma {:induction false} DayNameInjective(a: IsoDate, b: IsoDate)
    requires LawfulIso(a) && LawfulIso(b) && DayName(a) == DayName(b)
    ensures a == b
  {
    DayNameShape(a);
    DayNameShape(b);
    PadTwoDigits(a.week);
    PadTwoDigits(b.week);
    NamePartsEqual(Decimal(a.year), ZeroPad(Decimal(a.week), 2), DigitChar(a.weekday),
                   Decimal(b.year), ZeroPad(Decimal(b.week), 2), DigitChar(b.weekday));
    DecimalInjective(a.year, b.year);
    PaddedInjective(a.week, b.week, 2);
    DigitCharInjective(a.weekday, b.weekday);
  }

  /** The names of the days start to end. */
  function DayNames(clock: Clock, start: int, end: int): (names: seq<string>)
    requires start <= end
    ensures |names| == end - start + 1
    ensures forall i :: 0 <= i < |names| ==> names[i] == DayName(clock.isocalendar(start + i))
  {
    seq(end - start + 1, i => DayName(clock.isocalendar(start + i)))
  }

  /** What `generate` returns for the day `today`. */
  function Generated(p: WeekDayPattern, today: int, clock: Clock): (r: Result<seq<ChannelTemplate>, Error>)
    requires Valid(p)
    ensures r.Ok? <==> InRange(WeekStart(p.weeksBehind, today)) && WeekEnd(p.weeksAhead, today) < MaxOrdinal
                       && ValidTopic(p.topic)
    ensures r.Err? && ValidTopic(p.topic) ==> r.error == Overflow()
  {
    var start := WeekStart(p.weeksBehind, today);
    var end := WeekEnd(p.weeksAhead, today);
    if !InRange(start) || !InRange(end) then Err(Overflow())
    else WindowTemplates(start, end, DayNames(clock, start, end), p.topic)
  }

  method Generate(p: WeekDayPattern, today: int, clock: Clock) returns (r: Result<seq<ChannelTemplate>, Error>)
    requires Valid(p) && InRange(today) && Lawful(clock)
    ensures r == Generated(p, today, clock)
  {
    var daysBehind := p.weeksBehind * 7 + Weekday(today);
    var daysAhead := p.weeksAhead * 7 + (6 - Weekday(today));
    var start := today - daysBehind;
    var end := today + daysAhead;
    if !InRange(start) || !InRange(end) {
      return Err(Overflow());
    }
    var names := DayNames(clock, start, end);
    forall i | 0 <= i < |names|
      ensures IsChannelName(names[i])
    {
      DayNameShape(clock.isocalendar(start + i));
    }
    r := GenerateDays(start, end, names, p.topic);
  }

  /** The i-th channel is named after the i-th day of the window. */
  lemma {:induction false} NamedByDay(p: WeekDayPattern, today: int, clock: Clock)
    requires Valid(p)
    ensures var r := Generated(p, today, clock);
      r.Ok? ==> |r.value| == WeekEnd(p.weeksAhead, today) - WeekStart(p.weeksBehind, today) + 1
                && forall i :: 0 <= i < |r.value| ==>
                  r.value[i].name == DayName(clock.isocalendar(WeekStart(p.weeksBehind, today) + i))
  {
    var start := WeekStart(p.weeksBehind, today);
    var end := WeekEnd(p.weeksAhead, today);
    var r := Generated(p, today, clock);
    if r.Ok? {
      assert r == WindowTemplates(start, end, DayNames(clock, start, end), p.topic);
      WindowNamedByDay(start, end, clock, p.topic);
    }
  }

  /** The templates of a window carry the names of its days. */
  lemma WindowNamedByDay(start: int, end: int, clock: Clock, topic: Option<string>)
    requires start <= end
    ensures var r := WindowTemplates(start, end, DayNames(clock, start, end), topic);
      r.Ok? ==> |r.value| == end - start + 1
                && forall i :: 0 <= i < |r.value| ==> r.value[i].name == DayName(clock.isocalendar(start + i))
  {
  }

  /** The list covers whole weeks, Monday first, and the i-th name ends in
      "-0" and the weekday number (i mod 7) + 1. */
  lemma {:induction false} WeekdaysCycle(p: WeekDayPattern, today: int, clock: Clock)
    requires Valid(p) && Lawful(clock)
    ensures var r := Generated(p, today, clock);
      r.Ok? ==> |r.value| == 7 * (p.weeksBehind + p.weeksAhead + 1)
                && forall i :: 0 <= i < |r.value| ==> EndsInWeekday(r.value[i].name, i % 7 + 1)
  {
    var start := WeekStart(p.weeksBehind, today);
    var end := WeekEnd(p.weeksAhead, today);
    WholeWeeks(p.weeksAhead, p.weeksBehind, today);
    if InRange(start) && InRange(end) {
      WeekdaysFromMonday(clock, start, end);
      NamesCycle(clock, start, end);
      WindowCycle(start, end, DayNames(clock, start, end), p.topic);
    }
  }

  /** In a window starting on a Monday, the day d has a lawful week date
      whose weekday number is ((d - start) mod 7) + 1. */
  lemma WeekdaysFromMonday(clock: Clock, start: int, end: int)
    requires Lawful(clock) && InRange(start) && InRange(end) && start <= end && Weekday(start) == 0
    ensures forall d :: start <= d <= end ==>
              LawfulIso(clock.isocalendar(d)) && clock.isocalendar(d).weekday == (d - start) % 7 + 1
  {
    forall d | start <= d <= end
      ensures LawfulIso(clock.isocalendar(d)) && clock.isocalendar(d).weekday == (d - start) % 7 + 1
    {
      WeekdayInWindow(start, d - start);
    }
  }

  /** Days whose week dates count the weekdays from a Monday have names
      ending in "-0" and that weekday number. */
  lemma NamesCycle(clock: Clock, start: int, end: int)
    requires start <= end
    requires forall d :: start <= d <= end ==>
               LawfulIso(clock.isocalendar(d)) && clock.isocalendar(d).weekday == (d - start) % 7 + 1
    ensures var names := DayNames(clock, start, end);
      forall i :: 0 <= i < |names| ==> EndsInWeekday(names[i], i % 7 + 1)
  {
    var names := DayNames(clock, start, end);
    forall i | 0 <= i < |names|
      ensures EndsInWeekday(names[i], i % 7 + 1)
    {
      var iso := clock.isocalendar(start + i);
      assert start + i - start == i;
      NameEndsInWeekday(iso);
    }
  }

  /** Templates built from names that follow the weekdays carry them in
      the same order. */
  lemma WindowCycle(start: int, end: int, names: seq<string>, topic: Option<string>)
    requires start <= end && |names| == end - start + 1
    requires forall i :: 0 <= i < |names| ==> EndsInWeekday(names[i], i % 7 + 1)
    ensures var r := WindowTemplates(start, end, names, topic);
      r.Ok? ==> forall i :: 0 <= i < |r.value| ==> EndsInWeekday(r.value[i].name, i % 7 + 1)
  {
  }

  /** The year-qualified names are pairwise distinct: no two generated
      channels share a name. */
  lemma {:induction false} NamesDistinct(p: WeekDayPattern, today: int, clock: Clock)
    requires Valid(p) && Lawful(clock)
    ensures var r := Generated(p, today, clock);
      r.Ok? ==> forall i, j :: 0 <= i < j < |r.value| ==> r.value[i].name != r.value[j].name
  {
    var start := WeekStart(p.weeksBehind, today);
    var end := WeekEnd(p.weeksAhead, today);
    WholeWeeks(p.weeksAhead, p.weeksBehind, today);
    if InRange(start) && InRange(end) {
      DistinctNames(clock, start, end);
    }
    var r := Generated(p, today, clock);
    if r.Ok? {
      assert r == WindowTemplates(start, end, DayNames(clock, start, end), p.topic);
      WindowNamedByDay(start, end, clock, p.topic);
    }
  }

  /** Different days from start to end have different names. */
  lemma DistinctNames(clock: Clock, start: int, end: int)
    requires Lawful(clock) && InRange(start) && InRange(end) && start <= end
    ensures forall d, e :: start <= d < e <= end ==>
              DayName(clock.isocalendar(d)) != DayName(clock.isocalendar(e))
  {
    forall d, e | start <= d < e <= end
      ensures DayName(clock.isocalendar(d)) != DayName(clock.isocalendar(e))
    {
      var a := clock.isocalendar(d);
      var b := clock.isocalendar(e);
      assert clock.fromisocalendar(a) == d && clock.fromisocalendar(b) == e;
      assert LawfulIso(a) && LawfulIso(b);
      DistinctWeekDates(a, b, DayName(a), DayName(b));
    }
  }

  /** The names of two different lawful week dates differ. */
  lemma DistinctWeekDates(a: IsoDate, b: IsoDate, x: string, y: string)
    requires LawfulIso(a) && LawfulIso(b) && a != b
    requires x == DayName(a) && y == DayName(b)
    ensures x != y
  {
    if x == y {
      DayNameInjective(a, b);
    }
  }
}
