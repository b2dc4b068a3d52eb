/** Channel patterns: generators that expand into concrete channel
    templates. The abstract pattern base is modelled as the closed sum of
    the four generators the project defines, and `generate` as dispatch on
    that sum. */
module TemplatesPatterns {
  import opened Outcomes
  import opened Exceptions
  import opened Calendar
  import opened TemplatesChannel
  import TemplatesWeekdayPattern
  import PatternsDailyLog
  import PatternsWeekday
  import PatternsPrefixed

  datatype ChannelPattern =
    | WeekDay(weekDay: TemplatesWeekdayPattern.WeekDayPattern)
    | DailyLog(dailyLog: PatternsDailyLog.DailyLogPattern)
    | YearWeekDay(yearWeekDay: PatternsWeekday.WeekDayPattern)
    | Prefixed(prefixed: PatternsPrefixed.PrefixedPattern)

  /** The field bounds each kind of pattern validates on construction. */
  predicate Valid(pattern: ChannelPattern)
  {
    match pattern
    case WeekDay(p) => TemplatesWeekdayPattern.Valid(p)
    case DailyLog(p) => PatternsDailyLog.Valid(p)
    case YearWeekDay(p) => PatternsWeekday.Valid(p)
    case Prefixed(_) => true
  }

  /** What `pattern.generate()` returns on the day `today`. */
  function Generated(pattern: ChannelPattern, today: int, clock: Clock): (r: Result<seq<ChannelTemplate>, Error>)
    requires Valid(pattern)
  {
    match pattern
    case WeekDay(p) => TemplatesWeekdayPattern.Generated(p, today, clock)
    case DailyLog(p) => PatternsDailyLog.Generated(p, today, clock)
    case YearWeekDay(p) => PatternsWeekday.Generated(p, today, clock)
    case Prefixed(p) => PatternsPrefixed.Generated(p)
  }

  method Generate(pattern: ChannelPattern, today: int, clock: Clock) returns (r: Result<seq<ChannelTemplate>, Error>)
    requires Valid(pattern) && InRange(today) && Lawful(clock)
    ensures r == Generated(pattern, today, clock)
  {
    match pattern
    case WeekDay(p) => r := TemplatesWeekdayPattern.Generate(p, today, clock);
    case DailyLog(p) => r := PatternsDailyLog.Generate(p, today, clock);
    case YearWeekDay(p) => r := PatternsWeekday.Generate(p, today, clock);
    case Prefixed(p) => r := PatternsPrefixed.Generate(p);
  }
}
