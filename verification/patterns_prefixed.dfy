/** The prefixed pattern: one text channel per suffix, named prefix +
    separator + suffix, positioned by its index, with a topic from an
    optional generator applied to the suffix. The generator is any
    callable, so it may raise; it is modelled as returning its answer or
    the error it raises. */
module PatternsPrefixed {
  import opened Outcomes
  import opened Exceptions
  import opened Text
  import opened Types
  import opened TemplatesChannel

  datatype PrefixedPattern = PrefixedPattern(prefix: string, suffixes: seq<string>, separator: string := "-",
                                             topicGenerator: Option<string -> Result<string, Error>> := None)

  /** `topic_generator(suffix) if topic_generator else None`: a callable is
      always truthy, so only a missing generator gives no topic; a
      generator that raises passes its error on. */
  function TopicFor(p: PrefixedPattern, suffix: string): (topic: Result<Option<string>, Error>)
    ensures p.topicGenerator.None? ==> topic == Ok(None)
    ensures p.topicGenerator.Some? && p.topicGenerator.value(suffix).Ok? ==>
              topic == Ok(Some(p.topicGenerator.value(suffix).value))
    ensures p.topicGenerator.Some? && p.topicGenerator.value(suffix).Err? ==>
              topic == Err(p.topicGenerator.value(suffix).error)
  {
    match p.topicGenerator
    case None => Ok(None)
    case Some(generate) =>
      match generate(suffix)
      case Ok(t) => Ok(Some(t))
      case Err(e) => Err(e)
  }

  /** One turn of the loop at index i: the topic is asked for, then the
      template is validated. */
  function Step(p: PrefixedPattern, i: nat): Result<ChannelTemplate, Error>
    requires i < |p.suffixes|
  {
    match TopicFor(p, p.suffixes[i])
    case Err(e) => Err(e)
    case Ok(topic) => NewText(p.prefix + p.separator + p.suffixes[i], topic, Some(i))
  }

  /** What the loop returns from index i on: every template in suffix
      order, or the error of the first turn that raises. */
  function GeneratedFrom(p: PrefixedPattern, i: nat): (r: Result<seq<ChannelTemplate>, Error>)
    requires i <= |p.suffixes|
    ensures r.Ok? ==> |r.value| == |p.suffixes| - i
    decreases |p.suffixes| - i
  {
    if i == |p.suffixes| then Ok([])
    else
      match Step(p, i)
      case Err(e) => Err(e)
      case Ok(t) =>
        match GeneratedFrom(p, i + 1)
        case Err(e) => Err(e)
        case Ok(ts) => Ok([t] + ts)
  }

  /** From index i on, the loop succeeds exactly when every remaining turn
      does. */
  lemma {:induction false} GeneratedFromOk(p: PrefixedPattern, i: nat)
    requires i <= |p.suffixes|
    ensures GeneratedFrom(p, i).Ok? <==> forall j :: i <= j < |p.suffixes| ==> Step(p, j).Ok?
    decreases |p.suffixes| - i
  {
    if i < |p.suffixes| {
      GeneratedFromOk(p, i + 1);
      if Step(p, i).Ok? {
        assert GeneratedFrom(p, i).Ok? <==> GeneratedFrom(p, i + 1).Ok?;
      } else {
        assert GeneratedFrom(p, i).Err?;
      }
    }
  }

  /** In a successful loop from index i on, the template at place j - i is
      the one of the turn for suffix j. */
  lemma {:induction false} GeneratedFromAt(p: PrefixedPattern, i: nat, j: nat)
    requires i <= j < |p.suffixes| && GeneratedFrom(p, i).Ok?
    ensures Step(p, j).Ok? && GeneratedFrom(p, i).value[j - i] == Step(p, j).value
    decreases j - i
  {
    if i < j {
      GeneratedFromAt(p, i + 1, j);
    }
  }

  /** From index i on, a failing loop raises the error of the first turn
      that fails. */
  lemma {:induction false} GeneratedFromErr(p: PrefixedPattern, i: nat, k: nat)
    requires i <= k < |p.suffixes| && Step(p, k).Err?
    requires forall j :: i <= j < k ==> Step(p, j).Ok?
    ensures GeneratedFrom(p, i) == Err(Step(p, k).error)
    decreases k - i
  {
    if i < k {
      GeneratedFromErr(p, i + 1, k);
    }
  }

  /** What `generate` returns. */
  function Generated(p: PrefixedPattern): Result<seq<ChannelTemplate>, Error>
  {
    GeneratedFrom(p, 0)
  }

  /** `generate` succeeds exactly when every turn does, with one template
      per suffix in suffix order; otherwise it raises the error of the first
      turn that fails: the generator's own error, or the validation error of
      a bad name or a topic over 1024 characters. */
  lemma GeneratedSpec(p: PrefixedPattern)
    ensures Generated(p).Ok? <==> forall i :: 0 <= i < |p.suffixes| ==> Step(p, i).Ok?
    ensures Generated(p).Ok? ==>
              |Generated(p).value| == |p.suffixes| && forall i :: 0 <= i < |p.suffixes| ==> Generated(p).value[i] == Step(p, i).value
    ensures forall k :: 0 <= k < |p.suffixes| && Step(p, k).Err? && (forall j :: 0 <= j < k ==> Step(p, j).Ok?) ==>
              Generated(p) == Err(Step(p, k).error)
  {
    GeneratedFromOk(p, 0);
    if Generated(p).Ok? && 0 < |p.suffixes| {
      forall i | 0 <= i < |p.suffixes|
        ensures |Generated(p).value| == |p.suffixes| && Generated(p).value[i] == Step(p, i).value
      {
        GeneratedFromAt(p, 0, i);
      }
    }
    forall k | 0 <= k < |p.suffixes| && Step(p, k).Err? && (forall j :: 0 <= j < k ==> Step(p, j).Ok?)
      ensures Generated(p) == Err(Step(p, k).error)
    {
      GeneratedFromErr(p, 0, k);
    }
  }

  method Generate(p: PrefixedPattern) returns (r: Result<seq<ChannelTemplate>, Error>)
    ensures r == Generated(p)
  {
    var channels: seq<ChannelTemplate> := [];
    for i := 0 to |p.suffixes|
      invariant |channels| == i
      invariant forall j :: 0 <= j < i ==> Step(p, j).Ok? && channels[j] == Step(p, j).value
    {
      var suffix := p.suffixes[i];
      var name := p.prefix + p.separator + suffix;
      var topic: Option<string> := None;
      if p.topicGenerator.Some? {
        var generated := p.topicGenerator.value(suffix);
        if generated.Err? {
          assert Step(p, i) == Err(generated.error);
          GeneratedSpec(p);
          return Err(generated.error);
        }
        topic := Some(generated.value);
      }
      var t := NewText(name, topic, Some(i));
      assert TopicFor(p, suffix) == Ok(topic) && Step(p, i) == t;
      if t.Err? {
        GeneratedSpec(p);
        return Err(t.error);
      }
      channels := channels + [t.value];
    }
    GeneratedSpec(p);
    assert Generated(p).value == channels;
    return Ok(channels);
  }

  /** The i-th channel is named prefix + separator + suffixes[i], sits at
      position i, and has the generator's answer as its topic, or none when
      no generator is set. */
  lemma {:induction false} Layout(p: PrefixedPattern)
    ensures var r := Generated(p);
      r.Ok? ==> forall i :: 0 <= i < |r.value| ==>
                  && r.value[i].TextChannelTemplate?
                  && r.value[i].name == p.prefix + p.separator + p.suffixes[i]
                  && StartsWith(r.value[i].name, p.prefix + p.separator)
                  && r.value[i].position == Some(i)
                  && (p.topicGenerator.None? ==> r.value[i].topic.None?)
                  && (p.topicGenerator.Some? ==> r.value[i].topic.Some? && p.topicGenerator.value(p.suffixes[i]) == Ok(r.value[i].topic.value))
  {
    var r := Generated(p);
    GeneratedSpec(p);
    if r.Ok? {
      forall i | 0 <= i < |r.value|
        ensures StartsWith(r.value[i].name, p.prefix + p.separator)
      {
        assert r.value[i].name[..|p.prefix + p.separator|] == p.prefix + p.separator;
      }
    }
  }

  /** No suffixes, no channels. */
  lemma NoSuffixes(prefix: string, separator: string, topicGenerator: Option<string -> Result<string, Error>>)
    ensures Generated(PrefixedPattern(prefix, [], separator, topicGenerator)) == Ok([])
  {
  }

  /** Distinct suffixes give distinct channel names. */
  lemma {:induction false} NamesDistinct(p: PrefixedPattern)
    requires forall i, j :: 0 <= i < j < |p.suffixes| ==> p.suffixes[i] != p.suffixes[j]
    ensures var r := Generated(p);
      r.Ok? ==> forall i, j :: 0 <= i < j < |r.value| ==> r.value[i].name != r.value[j].name
  {
    var r := Generated(p);
    Layout(p);
    if r.Ok? {
      var head := p.prefix + p.separator;
      forall i, j | 0 <= i < j < |r.value|
        ensures r.value[i].name != r.value[j].name
      {
        var a, b := p.suffixes[i], p.suffixes[j];
        assert (head + a)[|head|..] == a;
        assert (head + b)[|head|..] == b;
      }
    }
  }
}
