/** One reconcile run: the server template, with its patterns resolved, is
    compared with the store by name, and whatever is missing is created
    remotely and saved. Categories are handled in template order, each
    followed at once by its own channels; the uncategorized channels come
    last, with no parent. Only text channels are ever created. Any failure
    stops the run as a ReconciliationError; what was created and saved
    before it stays. */
module EngineReconciler {
  import opened Outcomes
  import opened Exceptions
  import opened Dicts
  import opened Calendar
  import opened Remote
  import opened StateModels
  import opened TemplatesChannel
  import opened TemplatesCategory
  import opened TemplatesServer
  import StateMemory
  import StateRegistry

  /** `template.position or 0`. */
  function TemplatePosition(p: Option<int>): (r: int)
    ensures p.None? ==> r == 0
    ensures p.Some? ==> r == p.value
  {
    match p
    case None => 0
    case Some(v) => v
  }

  /** Some stored category has that name in that server: what the
      registry's lookup by name finds. */
  ghost predicate CategoryNamed(d: Dict<Category>, name: string, serverId: int)
    requires Dicts.Valid(d)
  {
    exists i :: 0 <= i < |Values(d)| && Values(d)[i].name == name && Values(d)[i].serverId == serverId
  }

  ghost predicate ChannelNamed(d: Dict<Channel>, name: string, serverId: int)
    requires Dicts.Valid(d)
  {
    exists i :: 0 <= i < |Values(d)| && Values(d)[i].name == name && Values(d)[i].serverId == serverId
  }

  /** The store already holds what a creation call would make. */
  ghost predicate Covered(c: Call, cats: Dict<Category>, chans: Dict<Channel>, serverId: int)
    requires Dicts.Valid(cats) && Dicts.Valid(chans)
  {
    match c
    case CategoryCreated(name) => CategoryNamed(cats, name, serverId)
    case TextChannelCreated(name, _, _) => ChannelNamed(chans, name, serverId)
  }

  ghost predicate AllCovered(cs: seq<Call>, cats: Dict<Category>, chans: Dict<Channel>, serverId: int)
    requires Dicts.Valid(cats) && Dicts.Valid(chans)
  {
    forall i :: 0 <= i < |cs| ==> Covered(cs[i], cats, chans, serverId)
  }

  ghost predicate NoneCovered(cs: seq<Call>, cats: Dict<Category>, chans: Dict<Channel>, serverId: int)
    requires Dicts.Valid(cats) && Dicts.Valid(chans)
  {
    forall i :: 0 <= i < |cs| ==> !Covered(cs[i], cats, chans, serverId)
  }

  /** Two calls that would create the same thing: the same kind and name. */
  predicate SameTarget(a: Call, b: Call)
  {
    a.CategoryCreated? == b.CategoryCreated? && a.name == b.name
  }

  /** Nothing is created twice. */
  predicate CallsDistinct(cs: seq<Call>)
  {
    forall i, j :: 0 <= i < j < |cs| ==> !SameTarget(cs[i], cs[j])
  }

  /** Every text-channel template of the list has a stored namesake. */
  ghost predicate ChannelsPresent(chs: seq<ChannelTemplate>, chans: Dict<Channel>, serverId: int)
    requires Dicts.Valid(chans)
  {
    PresentUpTo(chs, |chs|, chans, serverId)
  }

  /** The first `n` templates of the list are covered. */
  ghost predicate PresentUpTo(chs: seq<ChannelTemplate>, n: int, chans: Dict<Channel>, serverId: int)
    requires Dicts.Valid(chans)
  {
    forall i :: 0 <= i < n && i < |chs| && chs[i].TextChannelTemplate? ==> ChannelNamed(chans, chs[i].name, serverId)
  }

  ghost predicate CategoryPresent(t: CategoryTemplate, cats: Dict<Category>, chans: Dict<Channel>, serverId: int)
    requires Dicts.Valid(cats) && Dicts.Valid(chans)
  {
    CategoryNamed(cats, t.name, serverId) && ChannelsPresent(t.channels, chans, serverId)
  }

  /** Everything a run could create for the template is already stored. */
  ghost predicate AllPresent(t: ServerTemplate, cats: Dict<Category>, chans: Dict<Channel>, serverId: int)
    requires Dicts.Valid(cats) && Dicts.Valid(chans)
  {
    && CategoriesPresent(t.categories, |t.categories|, cats, chans, serverId)
    && ChannelsPresent(t.uncategorizedChannels, chans, serverId)
  }

  /** A creation call for one of the text-channel templates of the list,
      with its name and topic. */
  predicate TextCallFor(chs: seq<ChannelTemplate>, c: Call)
  {
    c.TextChannelCreated? &&
    exists j :: 0 <= j < |chs| && chs[j].TextChannelTemplate? && chs[j].name == c.name && chs[j].topic == c.topic
  }

  predicate CategoryCallFor(t: CategoryTemplate, c: Call)
  {
    c == CategoryCreated(t.name) || TextCallFor(t.channels, c)
  }

  /** A creation call the template asks for: one of its categories, a text
      channel of one of them, or an uncategorized text channel, created
      without a parent. */
  predicate CallFor(t: ServerTemplate, c: Call)
  {
    || (exists i :: 0 <= i < |t.categories| && CategoryCallFor(t.categories[i], c))
    || (TextCallFor(t.uncategorizedChannels, c) && c.parentId.None?)
  }

  /** Every key of the dict is below `next`. */
  predicate KeysBelow<V>(d: Dict<V>, next: int)
  {
    forall k :: k in d.entries ==> k < next
  }

  /** Remote ids are fresh for the store: every stored category and channel
      key is below the next id the guild hands out. */
  predicate Fresh(store: StateMemory.MemoryState, guild: Guild)
    reads store, guild
  {
    KeysBelow(store.categories, guild.nextId) && KeysBelow(store.channels, guild.nextId)
  }

  /** Saving a record under the fresh id `next` extends the dict, keeps its
      keys below `next + 1`, and stores a namesake of the record. */
  lemma SavedFresh<V>(d: Dict<V>, next: int, v: V)
    requires Dicts.Valid(d) && KeysBelow(d, next)
    ensures Extends(d, Put(d, next, v)) && KeysBelow(Put(d, next, v), next + 1)
    ensures Values(Put(d, next, v))[|Values(Put(d, next, v))| - 1] == v
  {
    PutValues(d, next, v);
  }

  /** What is stored stays stored while the store only grows. */
  lemma CoveredExtends(cs: seq<Call>, cats: Dict<Category>, chans: Dict<Channel>,
                       cats': Dict<Category>, chans': Dict<Channel>, serverId: int)
    requires Dicts.Valid(cats) && Dicts.Valid(chans) && Dicts.Valid(cats') && Dicts.Valid(chans')
    requires Extends(cats, cats') && Extends(chans, chans')
    ensures AllCovered(cs, cats, chans, serverId) ==> AllCovered(cs, cats', chans', serverId)
    ensures NoneCovered(cs, cats', chans', serverId) ==> NoneCovered(cs, cats, chans, serverId)
  {
    forall i | 0 <= i < |cs| && Covered(cs[i], cats, chans, serverId)
      ensures Covered(cs[i], cats', chans', serverId)
    {
      if cs[i].CategoryCreated? {
        var j :| 0 <= j < |Values(cats)| && Values(cats)[j].name == cs[i].name && Values(cats)[j].serverId == serverId;
        assert Values(cats')[j] == Values(cats)[j];
      } else {
        var j :| 0 <= j < |Values(chans)| && Values(chans)[j].name == cs[i].name && Values(chans)[j].serverId == serverId;
        assert Values(chans')[j] == Values(chans)[j];
      }
    }
  }

  lemma ChannelsPresentExtends(chs: seq<ChannelTemplate>, n: int, chans: Dict<Channel>, chans': Dict<Channel>, serverId: int)
    requires Dicts.Valid(chans) && Dicts.Valid(chans') && Extends(chans, chans')
    requires PresentUpTo(chs, n, chans, serverId)
    ensures PresentUpTo(chs, n, chans', serverId)
  {
    forall i | 0 <= i < n && i < |chs| && chs[i].TextChannelTemplate?
      ensures ChannelNamed(chans', chs[i].name, serverId)
    {
      var j :| 0 <= j < |Values(chans)| && Values(chans)[j].name == chs[i].name && Values(chans)[j].serverId == serverId;
      assert Values(chans')[j] == Values(chans)[j];
    }
  }

  lemma CategoryPresentExtends(t: CategoryTemplate, cats: Dict<Category>, chans: Dict<Channel>,
                               cats': Dict<Category>, chans': Dict<Channel>, serverId: int)
    requires Dicts.Valid(cats) && Dicts.Valid(chans) && Dicts.Valid(cats') && Dicts.Valid(chans')
    requires Extends(cats, cats') && Extends(chans, chans')
    requires CategoryPresent(t, cats, chans, serverId)
    ensures CategoryPresent(t, cats', chans', serverId)
  {
    var j :| 0 <= j < |Values(cats)| && Values(cats)[j].name == t.name && Values(cats)[j].serverId == serverId;
    assert Values(cats')[j] == Values(cats)[j];
    ChannelsPresentExtends(t.channels, |t.channels|, chans, chans', serverId);
  }

  /** Calls made one batch after another stay distinct when the first
      batch is stored before the second starts and the second creates only
      what is not stored. */
  lemma DistinctConcat(a: seq<Call>, b: seq<Call>, cats: Dict<Category>, chans: Dict<Channel>, serverId: int)
    requires Dicts.Valid(cats) && Dicts.Valid(chans)
    requires CallsDistinct(a) && CallsDistinct(b)
    requires AllCovered(a, cats, chans, serverId) && NoneCovered(b, cats, chans, serverId)
    ensures CallsDistinct(a + b)
  {
    var ab := a + b;
    forall i, j | 0 <= i < j < |ab|
      ensures !SameTarget(ab[i], ab[j])
    {
      if i < |a| && j >= |a| {
        assert Covered(ab[i], cats, chans, serverId);
        assert !Covered(ab[j], cats, chans, serverId);
      }
    }
  }

  /** The first `n` category templates of the list are present. */
  ghost predicate CategoriesPresent(ts: seq<CategoryTemplate>, n: int, cats: Dict<Category>, chans: Dict<Channel>, serverId: int)
    requires Dicts.Valid(cats) && Dicts.Valid(chans)
  {
    forall j :: 0 <= j < n && j < |ts| ==> CategoryPresent(ts[j], cats, chans, serverId)
  }

  lemma CategoriesPresentExtends(ts: seq<CategoryTemplate>, n: int, cats: Dict<Category>, chans: Dict<Channel>,
                                 cats': Dict<Category>, chans': Dict<Channel>, serverId: int)
    requires Dicts.Valid(cats) && Dicts.Valid(chans) && Dicts.Valid(cats') && Dicts.Valid(chans')
    requires Extends(cats, cats') && Extends(chans, chans')
    requires CategoriesPresent(ts, n, cats, chans, serverId)
    ensures CategoriesPresent(ts, n, cats', chans', serverId)
  {
    forall j | 0 <= j < n && j < |ts|
      ensures CategoryPresent(ts[j], cats', chans', serverId)
    {
      CategoryPresentExtends(ts[j], cats, chans, cats', chans', serverId);
    }
  }

  /** One step of the category loop: the category's calls create only what
      was missing, so they are distinct from the earlier ones, and a
      successful step leaves that category present. */
  lemma CategoryLoopStep(ts: seq<CategoryTemplate>, i: int, cats0: Dict<Category>, chans0: Dict<Channel>,
                         catsB: Dict<Category>, chansB: Dict<Channel>, cats1: Dict<Category>, chans1: Dict<Channel>,
                         madeB: seq<Call>, m: seq<Call>, pass: bool, serverId: int)
    requires 0 <= i < |ts|
    requires Dicts.Valid(cats0) && Dicts.Valid(chans0) && Dicts.Valid(catsB) && Dicts.Valid(chansB)
    requires Dicts.Valid(cats1) && Dicts.Valid(chans1)
    requires Extends(cats0, catsB) && Extends(chans0, chansB) && Extends(catsB, cats1) && Extends(chansB, chans1)
    requires CallsDistinct(madeB) && AllCovered(madeB, catsB, chansB, serverId)
    requires CategoriesPresent(ts, i, catsB, chansB, serverId)
    requires CallsDistinct(m) && NoneCovered(m, catsB, chansB, serverId)
    requires pass ==> AllCovered(m, cats1, chans1, serverId) && CategoryPresent(ts[i], cats1, chans1, serverId)
    ensures Extends(cats0, cats1) && Extends(chans0, chans1) && CallsDistinct(madeB + m)
    ensures pass ==> AllCovered(madeB + m, cats1, chans1, serverId) && CategoriesPresent(ts, i + 1, cats1, chans1, serverId)
  {
    ExtendsTransitive(cats0, catsB, cats1);
    ExtendsTransitive(chans0, chansB, chans1);
    DistinctConcat(madeB, m, catsB, chansB, serverId);
    CoveredExtends(madeB, catsB, chansB, cats1, chans1, serverId);
    CategoriesPresentExtends(ts, i, catsB, chansB, cats1, chans1, serverId);
  }

  /** The two halves of a run: the uncategorized channels' calls come after
      the categories' and create only what was missing, and a successful
      run leaves the whole template present. */
  lemma RunStep(t: ServerTemplate, cats0: Dict<Category>, chans0: Dict<Channel>,
                cats: Dict<Category>, chansM: Dict<Channel>, chans1: Dict<Channel>,
                madeA: seq<Call>, m: seq<Call>, pass: bool, serverId: int)
    requires Dicts.Valid(cats0) && Dicts.Valid(chans0) && Dicts.Valid(cats) && Dicts.Valid(chansM) && Dicts.Valid(chans1)
    requires Extends(cats0, cats) && Extends(chans0, chansM) && Extends(chansM, chans1)
    requires CallsDistinct(madeA) && AllCovered(madeA, cats, chansM, serverId)
    requires CategoriesPresent(t.categories, |t.categories|, cats, chansM, serverId)
    requires CallsDistinct(m) && NoneCovered(m, cats, chansM, serverId)
    requires pass ==> ChannelsPresent(t.uncategorizedChannels, chans1, serverId)
    ensures CallsDistinct(madeA + m)
    ensures pass ==> AllPresent(t, cats, chans1, serverId)
  {
    DistinctConcat(madeA, m, cats, chansM, serverId);
    CategoriesPresentExtends(t.categories, |t.categories|, cats, chansM, cats, chans1, serverId);
  }

  /** A category step: the category's own call, if any, was for a missing
      name, and its channels' calls follow once it is stored. */
  lemma CategoryCombine(t: CategoryTemplate, cats0: Dict<Category>, chans0: Dict<Channel>,
                        catsM: Dict<Category>, chans1: Dict<Channel>,
                        madeM: seq<Call>, m: seq<Call>, pass: bool, serverId: int)
    requires Dicts.Valid(cats0) && Dicts.Valid(chans0) && Dicts.Valid(catsM) && Dicts.Valid(chans1)
    requires Extends(cats0, catsM) && Extends(chans0, chans1)
    requires madeM == if CategoryNamed(cats0, t.name, serverId) then [] else [CategoryCreated(t.name)]
    requires CategoryNamed(catsM, t.name, serverId)
    requires CallsDistinct(m) && NoneCovered(m, catsM, chans0, serverId)
    requires pass ==> AllCovered(m, catsM, chans1, serverId) && ChannelsPresent(t.channels, chans1, serverId)
    ensures CallsDistinct(madeM + m) && NoneCovered(madeM + m, cats0, chans0, serverId)
    ensures pass ==> AllCovered(madeM + m, catsM, chans1, serverId) && CategoryPresent(t, catsM, chans1, serverId)
  {
    assert AllCovered(madeM, catsM, chans0, serverId);
    DistinctConcat(madeM, m, catsM, chans0, serverId);
    CoveredExtends(m, cats0, chans0, catsM, chans0, serverId);
    CoveredExtends(madeM, catsM, chans0, catsM, chans1, serverId);
  }

  /** One channel step of a loop over channel templates, for the calls:
      the calls made so far are stored and distinct, and the step's call
      (if any) names a channel that was not stored, so the calls stay
      distinct and none of them was covered at the start. */
  lemma ChannelStepCalls(chs: seq<ChannelTemplate>, i: int, cats: Dict<Category>,
                         chans0: Dict<Channel>, chansB: Dict<Channel>,
                         madeB: seq<Call>, m: seq<Call>, parent: Option<int>, serverId: int)
    requires 0 <= i < |chs|
    requires Dicts.Valid(cats) && Dicts.Valid(chans0) && Dicts.Valid(chansB)
    requires Extends(chans0, chansB)
    requires CallsDistinct(madeB) && NoneCovered(madeB, cats, chans0, serverId)
    requires AllCovered(madeB, cats, chansB, serverId)
    requires m == if !ChannelNamed(chansB, chs[i].name, serverId) && chs[i].TextChannelTemplate?
                  then [TextChannelCreated(chs[i].name, parent, chs[i].topic)] else []
    ensures CallsDistinct(madeB + m) && NoneCovered(madeB + m, cats, chans0, serverId)
  {
    CoveredExtends(m, cats, chans0, cats, chansB, serverId);
    DistinctConcat(madeB, m, cats, chansB, serverId);
    NoneCoveredConcat(madeB, m, cats, chans0, serverId);
  }

  /** One channel step, for the store: it still extends the starting one,
      and when the step passed, the calls so far and the templates up to
      this one are stored. */
  lemma ChannelStepStore(chs: seq<ChannelTemplate>, i: int, cats: Dict<Category>,
                         chans0: Dict<Channel>, chansB: Dict<Channel>, chans1: Dict<Channel>,
                         madeB: seq<Call>, m: seq<Call>, parent: Option<int>, pass: bool, serverId: int)
    requires 0 <= i < |chs|
    requires Dicts.Valid(cats) && Dicts.Valid(chans0) && Dicts.Valid(chansB) && Dicts.Valid(chans1)
    requires Extends(chans0, chansB) && Extends(chansB, chans1)
    requires AllCovered(madeB, cats, chansB, serverId) && PresentUpTo(chs, i, chansB, serverId)
    requires m == if !ChannelNamed(chansB, chs[i].name, serverId) && chs[i].TextChannelTemplate?
                  then [TextChannelCreated(chs[i].name, parent, chs[i].topic)] else []
    requires pass && chs[i].TextChannelTemplate? ==> ChannelNamed(chans1, chs[i].name, serverId)
    ensures Extends(chans0, chans1)
    ensures pass ==> AllCovered(madeB + m, cats, chans1, serverId) && PresentUpTo(chs, i + 1, chans1, serverId)
  {
    ExtendsTransitive(chans0, chansB, chans1);
    CoveredExtends(madeB, cats, chansB, cats, chans1, serverId);
    ChannelsPresentExtends(chs, i, chansB, chans1, serverId);
    if pass {
      AllCoveredConcat(madeB, m, cats, chans1, serverId);
    }
  }

  lemma AllCoveredConcat(a: seq<Call>, b: seq<Call>, cats: Dict<Category>, chans: Dict<Channel>, serverId: int)
    requires Dicts.Valid(cats) && Dicts.Valid(chans)
    requires AllCovered(a, cats, chans, serverId) && AllCovered(b, cats, chans, serverId)
    ensures AllCovered(a + b, cats, chans, serverId)
  {
    forall i | 0 <= i < |a + b|
      ensures Covered((a + b)[i], cats, chans, serverId)
    {
      if i >= |a| {
        assert (a + b)[i] == b[i - |a|];
      }
    }
  }

  lemma NoneCoveredConcat(a: seq<Call>, b: seq<Call>, cats: Dict<Category>, chans: Dict<Channel>, serverId: int)
    requires Dicts.Valid(cats) && Dicts.Valid(chans)
    requires NoneCovered(a, cats, chans, serverId) && NoneCovered(b, cats, chans, serverId)
    ensures NoneCovered(a + b, cats, chans, serverId)
  {
    forall i | 0 <= i < |a + b|
      ensures !Covered((a + b)[i], cats, chans, serverId)
    {
      if i >= |a| {
        assert (a + b)[i] == b[i - |a|];
      }
    }
  }

  class Reconciler {
    const store: StateMemory.MemoryState
    const registry: StateRegistry.EntityRegistry
    const serverId: int

    constructor (store: StateMemory.MemoryState, registry: StateRegistry.EntityRegistry, serverId: int)
      ensures this.store == store && this.registry == registry && this.serverId == serverId
    {
      this.store := store;
      this.registry := registry;
      this.serverId := serverId;
    }

    /** The registry reads the store the reconciler writes. */
    predicate Valid()
      reads store
    {
      store.Valid() && registry.store == StateRegistry.Memory(store)
    }

    /** The registry's lookup by name finds exactly the stored namesakes. */
    lemma LookupChannel(name: string)
      requires Valid()
      ensures registry.GetChannelByName(name, serverId).Ok? <==> ChannelNamed(store.channels, name, serverId)
    {
    }

    lemma LookupCategory(name: string)
      requires Valid()
      ensures registry.GetCategoryByName(name, serverId).Ok? <==> CategoryNamed(store.categories, name, serverId)
    {
    }

    /** The creating branch of `_reconcile_channel`: one
        `create_text_channel` call with the template's name and topic under
        `categoryId`, then the channel is saved under the new id with the
        template position or 0. */
    method CreateChannel(guild: Guild, template: ChannelTemplate, categoryId: Option<int>) returns (o: Outcome<Error>)
      requires Valid()
      modifies store, guild
      ensures Valid()
      ensures store.categories == old(store.categories) && store.users == old(store.users)
      ensures store.messages == old(store.messages)
      ensures guild.calls == old(guild.calls) + [TextChannelCreated(template.name, categoryId, template.topic)]
      ensures o.Pass? ==>
                && guild.nextId == old(guild.nextId) + 1
                && store.channels == Put(old(store.channels), old(guild.nextId),
                     Channel(old(guild.nextId), template.name, serverId, categoryId,
                             TemplatePosition(template.position), template.topic))
      ensures o.Fail? ==> store.channels == old(store.channels) && guild.nextId >= old(guild.nextId)
    {
      var created := guild.CreateTextChannel(template.name, categoryId, template.topic);
      if created.Err? {
        return Fail(created.error);
      }
      var channel := NewChannel(created.value.id, created.value.name, serverId, categoryId,
                                TemplatePosition(template.position), template.topic);
      if channel.Err? {
        return Fail(channel.error);
      }
      var saved := store.SaveChannel(channel.value);
      if saved.Fail? {
        return Fail(saved.error);
      }
      return Pass;
    }

    /** `_reconcile_channel`: a channel whose name is already stored for
        the server, under any category, is left alone, and so is a template
        of any kind but text; otherwise exactly one text channel is
        created. */
    method ReconcileChannel(guild: Guild, template: ChannelTemplate, categoryId: Option<int>)
      returns (o: Outcome<Error>, ghost made: seq<Call>)
      requires Valid()
      modifies store, guild
      ensures Valid()
      ensures store.categories == old(store.categories) && store.users == old(store.users)
      ensures store.messages == old(store.messages)
      ensures guild.calls == old(guild.calls) + made
      ensures made == if !ChannelNamed(old(store.channels), template.name, serverId) && template.TextChannelTemplate?
                      then [TextChannelCreated(template.name, categoryId, template.topic)] else []
      ensures made == [] ==> o.Pass? && store.channels == old(store.channels) && guild.nextId == old(guild.nextId)
      ensures old(Fresh(store, guild)) ==> Fresh(store, guild) && Extends(old(store.channels), store.channels)
      ensures old(Fresh(store, guild)) && o.Pass? && template.TextChannelTemplate? ==>
                ChannelNamed(store.channels, template.name, serverId)
    {
      made := [];
      LookupChannel(template.name);
      var found := registry.GetChannelByName(template.name, serverId);
      if found.Ok? || !template.TextChannelTemplate? {
        return Pass, made;
      }
      ghost var before, next := store.channels, guild.nextId;
      ghost var wasFresh := Fresh(store, guild);
      o := CreateChannel(guild, template, categoryId);
      made := [TextChannelCreated(template.name, categoryId, template.topic)];
      if wasFresh && o.Pass? {
        SavedFresh(before, next, Channel(next, template.name, serverId, categoryId,
                                         TemplatePosition(template.position), template.topic));
      }
    }

    /** The creating branch of `_reconcile_category`: one
        `create_category` call with the template's name, then the category
        is saved under the new id with the template position or 0. */
    method CreateCategory(guild: Guild, template: CategoryTemplate) returns (o: Result<int, Error>)
      requires Valid()
      modifies store, guild
      ensures Valid()
      ensures store.channels == old(store.channels) && store.users == old(store.users)
      ensures store.messages == old(store.messages)
      ensures guild.calls == old(guild.calls) + [CategoryCreated(template.name)]
      ensures o.Ok? ==>
                && o.value == old(guild.nextId) && guild.nextId == old(guild.nextId) + 1
                && store.categories == Put(old(store.categories), old(guild.nextId),
                     Category(old(guild.nextId), template.name, serverId, TemplatePosition(template.position)))
      ensures o.Err? ==> store.categories == old(store.categories) && guild.nextId >= old(guild.nextId)
    {
      var created := guild.CreateCategory(template.name);
      if created.Err? {
        return Err(created.error);
      }
      var category := NewCategory(created.value.id, created.value.name, serverId, TemplatePosition(template.position));
      if category.Err? {
        return Err(category.error);
      }
      store.SaveCategory(category.value);
      return Ok(category.value.id);
    }

    /** The channel loops of `_reconcile_category` and `reconcile`: each
        channel template in order, under `parent`, stopping at the first
        failure. */
    method ReconcileChannels(guild: Guild, channels: seq<ChannelTemplate>, parent: Option<int>)
      returns (o: Outcome<Error>, ghost made: seq<Call>)
      requires Valid()
      modifies store, guild
      ensures Valid()
      ensures store.categories == old(store.categories) && store.users == old(store.users)
      ensures store.messages == old(store.messages)
      ensures guild.calls == old(guild.calls) + made
      ensures forall c :: c in made ==> TextCallFor(channels, c) && c.parentId == parent
      ensures ChannelsPresent(channels, old(store.channels), serverId) ==>
                o.Pass? && made == [] && store.channels == old(store.channels)
      ensures old(Fresh(store, guild)) ==>
                && Fresh(store, guild) && Extends(old(store.channels), store.channels)
                && CallsDistinct(made) && NoneCovered(made, store.categories, old(store.channels), serverId)
      ensures old(Fresh(store, guild)) && o.Pass? ==>
                AllCovered(made, store.categories, store.channels, serverId) && ChannelsPresent(channels, store.channels, serverId)
    {
      ghost var chans0, calls0, fresh0 := store.channels, guild.calls, Fresh(store, guild);
      made := [];
      for i := 0 to |channels|
        invariant Valid()
        invariant store.categories == old(store.categories) && store.users == old(store.users)
        invariant store.messages == old(store.messages)
        invariant guild.calls == calls0 + made
        invariant forall c :: c in made ==> TextCallFor(channels, c) && c.parentId == parent
        invariant ChannelsPresent(channels, chans0, serverId) ==> made == [] && store.channels == chans0
        invariant fresh0 ==>
                    && Fresh(store, guild) && Extends(chans0, store.channels)
                    && CallsDistinct(made) && NoneCovered(made, store.categories, chans0, serverId)
                    && AllCovered(made, store.categories, store.channels, serverId)
                    && PresentUpTo(channels, i, store.channels, serverId)
      {
        ghost var chansB, madeB := store.channels, made;
        var r, m := ReconcileChannel(guild, channels[i], parent);
        made := made + m;
        if fresh0 {
          ChannelStepCalls(channels, i, store.categories, chans0, chansB, madeB, m, parent, serverId);
          ChannelStepStore(channels, i, store.categories, chans0, chansB, store.channels, madeB, m, parent, r.Pass?, serverId);
        }
        if r.Fail? {
          return r, made;
        }
      }
      return Pass, made;
    }

    /** The lookup-or-create half of `_reconcile_category`: a category
        whose name is already stored for the server is reused without any
        create call; otherwise exactly one category is created. The result
        is the category's id. */
    method EnsureCategory(guild: Guild, template: CategoryTemplate) returns (id: Result<int, Error>, ghost made: seq<Call>)
      requires Valid()
      modifies store, guild
      ensures Valid()
      ensures store.channels == old(store.channels)
      ensures store.users == old(store.users) && store.messages == old(store.messages)
      ensures guild.calls == old(guild.calls) + made
      ensures made == if CategoryNamed(old(store.categories), template.name, serverId) then []
                      else [CategoryCreated(template.name)]
      ensures made == [] ==> id.Ok? && store.categories == old(store.categories) && guild.nextId == old(guild.nextId)
      ensures old(Fresh(store, guild)) ==> Fresh(store, guild) && Extends(old(store.categories), store.categories)
      ensures old(Fresh(store, guild)) && id.Ok? ==> CategoryNamed(store.categories, template.name, serverId)
    {
      made := [];
      LookupCategory(template.name);
      var found := registry.GetCategoryByName(template.name, serverId);
      if found.Ok? {
        return Ok(found.value.id), made;
      }
      ghost var before, next := store.categories, guild.nextId;
      ghost var wasFresh := Fresh(store, guild);
      id := CreateCategory(guild, template);
      made := [CategoryCreated(template.name)];
      if wasFresh && id.Ok? {
        SavedFresh(before, next, Category(next, template.name, serverId, TemplatePosition(template.position)));
      }
    }

    /** `_reconcile_category`: the category is found or created, then its
        channels follow, under that category's id. */
    method ReconcileCategory(guild: Guild, template: CategoryTemplate) returns (o: Outcome<Error>, ghost made: seq<Call>)
      requires Valid()
      modifies store, guild
      ensures Valid()
      ensures store.users == old(store.users) && store.messages == old(store.messages)
      ensures guild.calls == old(guild.calls) + made
      ensures forall c :: c in made ==> CategoryCallFor(template, c)
      ensures CategoryPresent(template, old(store.categories), old(store.channels), serverId) ==>
                o.Pass? && made == [] && store.categories == old(store.categories) && store.channels == old(store.channels)
      ensures old(Fresh(store, guild)) ==>
                && Fresh(store, guild)
                && Extends(old(store.categories), store.categories) && Extends(old(store.channels), store.channels)
                && CallsDistinct(made) && NoneCovered(made, old(store.categories), old(store.channels), serverId)
      ensures old(Fresh(store, guild)) && o.Pass? ==>
                && AllCovered(made, store.categories, store.channels, serverId)
                && CategoryPresent(template, store.categories, store.channels, serverId)
    {
      ghost var cats0, chans0, fresh0 := store.categories, store.channels, Fresh(store, guild);
      var id;
      id, made := EnsureCategory(guild, template);
      if id.Err? {
        return Fail(id.error), made;
      }
      ghost var catsM := store.categories;
      var r, m := ReconcileChannels(guild, template.channels, Some(id.value));
      if fresh0 {
        CategoryCombine(template, cats0, chans0, catsM, store.channels, made, m, r.Pass?, serverId);
      }
      made := made + m;
      return r, made;
    }

    /** The category loop of `reconcile`: each category template in order,
        stopping at the first failure. */
    method ReconcileCategories(guild: Guild, categories: seq<CategoryTemplate>)
      returns (o: Outcome<Error>, ghost made: seq<Call>)
      requires Valid()
      modifies store, guild
      ensures Valid()
      ensures store.users == old(store.users) && store.messages == old(store.messages)
      ensures guild.calls == old(guild.calls) + made
      ensures forall c :: c in made ==> exists i :: 0 <= i < |categories| && CategoryCallFor(categories[i], c)
      ensures CategoriesPresent(categories, |categories|, old(store.categories), old(store.channels), serverId) ==>
                o.Pass? && made == [] && store.categories == old(store.categories) && store.channels == old(store.channels)
      ensures old(Fresh(store, guild)) ==>
                && Fresh(store, guild)
                && Extends(old(store.categories), store.categories) && Extends(old(store.channels), store.channels)
                && CallsDistinct(made)
      ensures old(Fresh(store, guild)) && o.Pass? ==>
                && AllCovered(made, store.categories, store.channels, serverId)
                && CategoriesPresent(categories, |categories|, store.categories, store.channels, serverId)
    {
      ghost var cats0, chans0, calls0, fresh0 := store.categories, store.channels, guild.calls, Fresh(store, guild);
      ghost var present0 := CategoriesPresent(categories, |categories|, cats0, chans0, serverId);
      made := [];
      for i := 0 to |categories|
        invariant Valid()
        invariant store.users == old(store.users) && store.messages == old(store.messages)
        invariant guild.calls == calls0 + made
        invariant forall c :: c in made ==> exists k :: 0 <= k < i && CategoryCallFor(categories[k], c)
        invariant present0 ==> made == [] && store.categories == cats0 && store.channels == chans0
        invariant fresh0 ==>
                    && Fresh(store, guild)
                    && Extends(cats0, store.categories) && Extends(chans0, store.channels)
                    && CallsDistinct(made) && AllCovered(made, store.categories, store.channels, serverId)
                    && CategoriesPresent(categories, i, store.categories, store.channels, serverId)
      {
        ghost var catsB, chansB, madeB := store.categories, store.channels, made;
        var r, m := ReconcileCategory(guild, categories[i]);
        made := made + m;
        if fresh0 {
          CategoryLoopStep(categories, i, cats0, chans0, catsB, chansB, store.categories, store.channels,
                           madeB, m, r.Pass?, serverId);
        }
        if r.Fail? {
          return r, made;
        }
      }
      return Pass, made;
    }

    /** The body of `reconcile` once the patterns are resolved: every
        category with its channels, then the uncategorized channels with no
        parent. */
    method ReconcileResolved(guild: Guild, t: ServerTemplate) returns (o: Outcome<Error>, ghost made: seq<Call>)
      requires Valid()
      modifies store, guild
      ensures Valid()
      ensures store.users == old(store.users) && store.messages == old(store.messages)
      ensures guild.calls == old(guild.calls) + made
      ensures forall c :: c in made ==> CallFor(t, c)
      ensures AllPresent(t, old(store.categories), old(store.channels), serverId) ==>
                o.Pass? && made == [] && store.categories == old(store.categories) && store.channels == old(store.channels)
      ensures old(Fresh(store, guild)) ==>
                && Fresh(store, guild) && CallsDistinct(made)
                && (o.Pass? ==> AllPresent(t, store.categories, store.channels, serverId))
    {
      ghost var cats0, chans0, fresh0 := store.categories, store.channels, Fresh(store, guild);
      o, made := ReconcileCategories(guild, t.categories);
      if o.Fail? {
        return o, made;
      }
      ghost var chansM := store.channels;
      var r, m := ReconcileChannels(guild, t.uncategorizedChannels, None);
      if fresh0 {
        RunStep(t, cats0, chans0, store.categories, chansM, store.channels, made, m, r.Pass?, serverId);
      }
      made := made + m;
      return r, made;
    }

    /** `reconcile`: patterns are resolved first, then the resolved
        template is reconciled; any failure becomes a ReconciliationError
        whose cause is the original error. Every call made is one the
        resolved template asks for. A run over a store that already holds
        everything makes no call and changes nothing; when remote ids are
        fresh, no name is created twice in a run and a successful run
        leaves everything stored, so the next run makes no call. */
    method Reconcile(guild: Guild, template: ServerTemplate, today: int, clock: Clock)
      returns (o: Outcome<Error>, ghost made: seq<Call>)
      requires Valid() && PatternsValid(template.patterns) && InRange(today) && Lawful(clock)
      modifies store, guild
      ensures Valid()
      ensures store.users == old(store.users) && store.messages == old(store.messages)
      ensures guild.calls == old(guild.calls) + made
      ensures o.Fail? ==> o.error.kind == ReconciliationError && o.error.message == "Failed to reconcile template"
                          && o.error.cause.Some?
      ensures Resolved(template, today, clock).Err? ==>
                && o == Fail(Raise(ReconciliationError, "Failed to reconcile template", Some(Resolved(template, today, clock).error)))
                && made == [] && store.categories == old(store.categories) && store.channels == old(store.channels)
      ensures Resolved(template, today, clock).Ok? ==> forall c :: c in made ==> CallFor(Resolved(template, today, clock).value, c)
      ensures Resolved(template, today, clock).Ok? &&
              AllPresent(Resolved(template, today, clock).value, old(store.categories), old(store.channels), serverId) ==>
                o.Pass? && made == [] && store.categories == old(store.categories) && store.channels == old(store.channels)
      ensures Resolved(template, today, clock).Ok? && old(Fresh(store, guild)) ==>
                && Fresh(store, guild) && CallsDistinct(made)
                && (o.Pass? ==> AllPresent(Resolved(template, today, clock).value, store.categories, store.channels, serverId))
    {
      made := [];
      var resolved := ResolvePatterns(template, today, clock);
      if resolved.Err? {
        return Fail(Raise(ReconciliationError, "Failed to reconcile template", Some(resolved.error))), made;
      }
      var r;
      r, made := ReconcileResolved(guild, resolved.value);
      if r.Fail? {
        return Fail(Raise(ReconciliationError, "Failed to reconcile template", Some(r.error))), made;
      }
      return Pass, made;
    }
  }

  /** Two runs on the same template and day, with nothing else writing the
      store in between: when remote ids are fresh and the first run
      succeeds, the second makes no create call and changes nothing. */
  method ReconcileTwice(reconciler: Reconciler, guild: Guild, template: ServerTemplate, today: int, clock: Clock)
    returns (first: Outcome<Error>, second: Outcome<Error>, ghost firstMade: seq<Call>, ghost afterFirst: seq<Call>)
    requires reconciler.Valid() && PatternsValid(template.patterns) && InRange(today) && Lawful(clock)
    requires Fresh(reconciler.store, guild)
    modifies reconciler.store, guild
    ensures afterFirst == old(guild.calls) + firstMade && CallsDistinct(firstMade)
    ensures first.Pass? ==> second.Pass? && guild.calls == afterFirst
  {
    ghost var made2;
    first, firstMade := reconciler.Reconcile(guild, template, today, clock);
    afterFirst := guild.calls;
    second, made2 := reconciler.Reconcile(guild, template, today, clock);
  }
}
