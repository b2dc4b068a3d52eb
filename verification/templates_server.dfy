/** A complete declarative server: categories, channels outside any
    category, and channel patterns still to be expanded. */
module TemplatesServer {
  import opened Outcomes
  import opened Exceptions
  import opened Batches
  import opened Calendar
  import opened TemplatesChannel
  import opened TemplatesCategory
  import opened TemplatesPatterns

  datatype ServerTemplate = ServerTemplate(categories: seq<CategoryTemplate> := [],
                                           uncategorizedChannels: seq<ChannelTemplate> := [],
                                           patterns: seq<ChannelPattern> := [])

  predicate PatternsValid(patterns: seq<ChannelPattern>)
  {
    forall i :: 0 <= i < |patterns| ==> TemplatesPatterns.Valid(patterns[i])
  }

  /** What each pattern generates for the day `today`, in order. */
  function Outputs(patterns: seq<ChannelPattern>, today: int, clock: Clock): (rs: seq<Result<seq<ChannelTemplate>, Error>>)
    requires PatternsValid(patterns)
    ensures |rs| == |patterns|
    ensures forall i :: 0 <= i < |rs| ==> rs[i] == Generated(patterns[i], today, clock)
  {
    seq(|patterns|, i requires 0 <= i < |patterns| => Generated(patterns[i], today, clock))
  }

  /** The concatenated output of the patterns, in order, or the error of
      the first pattern whose generation fails. */
  function Expanded(patterns: seq<ChannelPattern>, today: int, clock: Clock): Result<seq<ChannelTemplate>, Error>
    requires PatternsValid(patterns)
  {
    Joined(Outputs(patterns, today, clock))
  }

  /** What `resolve_patterns` returns: a new template with the same
      categories, the uncategorized channels followed by every pattern's
      output, and no patterns. */
  function Resolved(t: ServerTemplate, today: int, clock: Clock): (r: Result<ServerTemplate, Error>)
    requires PatternsValid(t.patterns)
    ensures r.Ok? <==> Expanded(t.patterns, today, clock).Ok?
    ensures r.Ok? ==> r.value.patterns == [] && r.value.categories == t.categories
    ensures r.Ok? ==> r.value.uncategorizedChannels == t.uncategorizedChannels + Expanded(t.patterns, today, clock).value
    ensures r.Err? ==> r.error == Expanded(t.patterns, today, clock).error
  {
    match Expanded(t.patterns, today, clock)
    case Err(e) => Err(e)
    case Ok(generated) => Ok(ServerTemplate(t.categories, t.uncategorizedChannels + generated, []))
  }

  method ResolvePatterns(t: ServerTemplate, today: int, clock: Clock) returns (r: Result<ServerTemplate, Error>)
    requires PatternsValid(t.patterns) && InRange(today) && Lawful(clock)
    ensures r == Resolved(t, today, clock)
  {
    var generated := ExpandAll(t.patterns, today, clock);
    if generated.Err? {
      return Err(generated.error);
    }
    return Ok(ServerTemplate(t.categories, t.uncategorizedChannels + generated.value, []));
  }

  /** The loop of `resolve_patterns`: every pattern's output, in order,
      stopping at the first pattern that raises. */
  method ExpandAll(patterns: seq<ChannelPattern>, today: int, clock: Clock) returns (r: Result<seq<ChannelTemplate>, Error>)
    requires PatternsValid(patterns) && InRange(today) && Lawful(clock)
    ensures r == Expanded(patterns, today, clock)
  {
    ghost var rs := Outputs(patterns, today, clock);
    var expanded := [];
    for i := 0 to |patterns|
      invariant Joined(rs[..i]) == Ok(expanded)
    {
      var generated := Generate(patterns[i], today, clock);
      JoinedStep(rs, i);
      if generated.Err? {
        JoinedFailsFrom(rs, i + 1);
        return Err(generated.error);
      }
      expanded := expanded + generated.value;
    }
    assert rs[..|patterns|] == rs;
    return Ok(expanded);
  }

  /** Resolution succeeds exactly when every pattern generates, and a
      failure is the error of one of the patterns. */
  lemma ResolvedOk(t: ServerTemplate, today: int, clock: Clock)
    requires PatternsValid(t.patterns)
    ensures Resolved(t, today, clock).Ok? <==>
              forall i :: 0 <= i < |t.patterns| ==> Generated(t.patterns[i], today, clock).Ok?
    ensures Resolved(t, today, clock).Err? ==>
              exists i :: 0 <= i < |t.patterns| && Generated(t.patterns[i], today, clock).Err?
                          && Resolved(t, today, clock).error == Generated(t.patterns[i], today, clock).error
  {
    JoinedOk(Outputs(t.patterns, today, clock));
  }

  /** Expanding two lists of patterns one after the other is expanding
      their concatenation. */
  lemma ExpandedAppend(ps: seq<ChannelPattern>, qs: seq<ChannelPattern>, today: int, clock: Clock)
    requires PatternsValid(ps) && PatternsValid(qs)
    ensures PatternsValid(ps + qs)
    ensures Expanded(ps, today, clock).Ok? && Expanded(qs, today, clock).Ok? ==>
              Expanded(ps + qs, today, clock) == Ok(Expanded(ps, today, clock).value + Expanded(qs, today, clock).value)
  {
    var both := ps + qs;
    assert forall k :: 0 <= k < |both| ==> both[k] == if k < |ps| then ps[k] else qs[k - |ps|];
    var a := Outputs(ps, today, clock);
    var b := Outputs(qs, today, clock);
    assert Outputs(both, today, clock) == a + b;
    if Joined(a).Ok? && Joined(b).Ok? {
      JoinedAppend(a, b);
    }
  }

  /** A single pattern expands to exactly its own output. */
  lemma ExpandedSingle(pattern: ChannelPattern, today: int, clock: Clock)
    requires TemplatesPatterns.Valid(pattern)
    ensures Expanded([pattern], today, clock) == Generated(pattern, today, clock)
  {
    var rs := Outputs([pattern], today, clock);
    assert rs[..0] == [];
    if rs[0].Ok? {
      assert [] + rs[0].value == rs[0].value;
    }
  }

  /** A template without patterns resolves to itself. */
  lemma ResolveWithoutPatterns(t: ServerTemplate, today: int, clock: Clock)
    requires t.patterns == []
    ensures Resolved(t, today, clock) == Ok(t)
  {
    assert t.uncategorizedChannels + [] == t.uncategorizedChannels;
  }

  /** Resolving an already resolved template gives it back unchanged. */
  lemma ResolveIdempotent(t: ServerTemplate, today: int, clock: Clock)
    requires PatternsValid(t.patterns) && Resolved(t, today, clock).Ok?
    ensures Resolved(Resolved(t, today, clock).value, today, clock) == Resolved(t, today, clock)
  {
    ResolveWithoutPatterns(Resolved(t, today, clock).value, today, clock);
  }
}
