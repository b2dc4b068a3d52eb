/** The first-generation category manager: it discovers the guild's
    categories, saves each to the database and then to the JSONL backup,
    and looks categories up in the database. A save never raises: a
    DatabaseError or JSONLError from either sink is swallowed on its own,
    so neither blocks the other. */
module ManagersCategory {
  import opened Outcomes
  import opened Text
  import opened Exceptions
  import opened Dicts
  import opened Batches
  import opened Remote
  import opened ModelsCategory
  import opened Jsonl
  import PersistenceDatabase

  /** One iteration of the discovery loop: other kinds contribute nothing;
      a category item contributes its record, or the validation error. */
  function CategoryStep(item: Item, serverId: int): Result<seq<DiscordCategory>, Error>
  {
    if !IsCategoryItem(item) then Ok([])
    else match New(item.id, item.name, serverId, PositionOrZero(item))
      case Ok(c) => Ok([c])
      case Err(e) => Err(e)
  }

  function CategorySteps(items: seq<Item>, serverId: int): (rs: seq<Result<seq<DiscordCategory>, Error>>)
    ensures |rs| == |items| && forall i :: 0 <= i < |items| ==> rs[i] == CategoryStep(items[i], serverId)
  {
    seq(|items|, i requires 0 <= i < |items| => CategoryStep(items[i], serverId))
  }

  /** The categories the loop collects, or the error that stopped it. */
  function DiscoveredCategories(items: seq<Item>, serverId: int): Result<seq<DiscordCategory>, Error>
  {
    Joined(CategorySteps(items, serverId))
  }

  /** The record built for a category item. */
  function CategoryRecord(item: Item, serverId: int): DiscordCategory
  {
    DiscordCategory(item.id, item.name, serverId, PositionOrZero(item))
  }

  function CategoryRecords(items: seq<Item>, serverId: int): (cs: seq<DiscordCategory>)
    ensures |cs| == |items| && forall i :: 0 <= i < |items| ==> cs[i] == CategoryRecord(items[i], serverId)
  {
    seq(|items|, i requires 0 <= i < |items| => CategoryRecord(items[i], serverId))
  }

  /** The backup lines written for a list of categories, in order. */
  function CategoryEntries(cs: seq<DiscordCategory>): (es: seq<Entry>)
    ensures |es| == |cs| && forall i :: 0 <= i < |cs| ==> es[i] == CategoryEntry(cs[i])
  {
    seq(|cs|, i requires 0 <= i < |cs| => CategoryEntry(cs[i]))
  }

  function CategoryId(c: DiscordCategory): int { c.id }

  /** The error for a name that no stored category of the server has. */
  function NotFoundByName(name: string, serverId: int): Error
  {
    Raise(CategoryNotFoundError, "Category '" + name + "' not found in server " + IntToString(serverId))
  }

  class CategoryManager {
    const db: PersistenceDatabase.DatabaseWriter
    const jsonl: JsonlWriter
    const serverId: int

    constructor (db: PersistenceDatabase.DatabaseWriter, jsonl: JsonlWriter, serverId: int)
      ensures this.db == db && this.jsonl == jsonl && this.serverId == serverId
    {
      this.db := db;
      this.jsonl := jsonl;
      this.serverId := serverId;
    }

    /** `save_category`: the database write happens, and the backup write
        is attempted whatever the database did; a failed backup write is
        swallowed and leaves the log as it was. */
    method SaveCategory(category: DiscordCategory)
      requires db.Valid()
      modifies db, jsonl
      ensures db.Valid()
      ensures db.categories == Put(old(db.categories), category.id, category)
      ensures db.channels == old(db.channels) && db.users == old(db.users) && db.messages == old(db.messages)
      ensures jsonl.attempts == old(jsonl.attempts) + [CategoryEntry(category)]
      ensures jsonl.lines == old(jsonl.lines) || jsonl.lines == old(jsonl.lines) + [CategoryEntry(category)]
    {
      db.SaveCategory(category);
      var written := jsonl.WriteCategory(category);
    }

    /** One save of the discovery loop, in terms of everything collected
        so far. */
    method SaveCollected(ghost d0: Dict<DiscordCategory>, ghost a0: seq<Entry>,
                         categories: seq<DiscordCategory>, category: DiscordCategory)
      requires db.Valid() && Dicts.Valid(d0)
      requires db.categories == PutAll(d0, categories, CategoryId)
      requires jsonl.attempts == a0 + CategoryEntries(categories)
      modifies db, jsonl
      ensures db.Valid()
      ensures db.categories == PutAll(d0, categories + [category], CategoryId)
      ensures jsonl.attempts == a0 + CategoryEntries(categories + [category])
      ensures db.channels == old(db.channels) && db.users == old(db.users) && db.messages == old(db.messages)
    {
      SaveCategory(category);
      Collected(d0, categories, category);
    }

    /** `discover_categories`: the categories collected, or
        DiscordAPIError("Failed to discover categories") wrapping the
        validation error that stopped the loop. Each collected category was
        saved once, in guild order: the database holds it and its backup
        write was attempted. */
    method DiscoverCategories(guild: Guild) returns (r: Result<seq<DiscordCategory>, Error>)
      requires db.Valid()
      modifies db, jsonl
      ensures db.Valid()
      ensures r == Wrapped(DiscoveredCategories(guild.channels, serverId), "Failed to discover categories")
      ensures r.Ok? ==> db.categories == PutAll(old(db.categories), r.value, CategoryId)
                        && jsonl.attempts == old(jsonl.attempts) + CategoryEntries(r.value)
      ensures r.Err? ==> exists n :: (0 <= n < |guild.channels|
                && Joined(CategorySteps(guild.channels, serverId)[..n]).Ok?
                && CategorySteps(guild.channels, serverId)[n].Err?
                && db.categories == PutAll(old(db.categories), Joined(CategorySteps(guild.channels, serverId)[..n]).value, CategoryId))
      ensures db.channels == old(db.channels) && db.users == old(db.users) && db.messages == old(db.messages)
    {
      var items := guild.channels;
      ghost var rs := CategorySteps(items, serverId);
      var categories := [];
      for i := 0 to |items|
        invariant db.Valid()
        invariant Joined(rs[..i]) == Ok(categories)
        invariant db.categories == PutAll(old(db.categories), categories, CategoryId)
        invariant jsonl.attempts == old(jsonl.attempts) + CategoryEntries(categories)
        invariant db.channels == old(db.channels) && db.users == old(db.users) && db.messages == old(db.messages)
      {
        JoinedStep(rs, i);
        var item := items[i];
        if item.kind == CategoryKind {
          var category := New(item.id, item.name, serverId, PositionOrZero(item));
          if category.Err? {
            JoinedFailsFrom(rs, i + 1);
            return Err(Raise(DiscordAPIError, "Failed to discover categories", Some(category.error)));
          }
          SaveCollected(old(db.categories), old(jsonl.attempts), categories, category.value);
          categories := categories + [category.value];
        } else {
          assert categories + [] == categories;
        }
      }
      assert rs[..|items|] == rs;
      return Ok(categories);
    }

    /** `get_category_by_name`: the first stored category, in insertion
        order, with that name in the manager's own server, or
        CategoryNotFoundError. */
    method GetCategoryByName(name: string) returns (r: Result<DiscordCategory, Error>)
      requires db.Valid()
      modifies db`initialized
      ensures r.Ok? <==> exists i :: 0 <= i < |Values(db.categories)|
                          && Values(db.categories)[i].name == name && Values(db.categories)[i].serverId == serverId
      ensures r.Ok? ==> r.value == FirstWhere(Values(db.categories), PersistenceDatabase.CategoryNamed(name, serverId)).value
                        && r.value.name == name && r.value.serverId == serverId
      ensures r.Err? ==> r.error == NotFoundByName(name, serverId)
    {
      var category := db.GetCategoryByName(name, serverId);
      if category.None? {
        return Err(NotFoundByName(name, serverId));
      }
      return Ok(category.value);
    }

    /** `get_category`: the stored category with that id, or
        CategoryNotFoundError. */
    method GetCategory(categoryId: int) returns (r: Result<DiscordCategory, Error>)
      modifies db`initialized
      ensures r.Ok? <==> categoryId in db.categories.entries
      ensures r.Ok? ==> r.value == db.categories.entries[categoryId]
      ensures r.Err? ==> r.error == Raise(CategoryNotFoundError, "Category " + IntToString(categoryId) + " not found")
    {
      var category := db.GetCategory(categoryId);
      if category.None? {
        return Err(Raise(CategoryNotFoundError, "Category " + IntToString(categoryId) + " not found"));
      }
      return Ok(category.value);
    }
  }

  /** Saving one more category after the ones collected so far. */
  lemma Collected(d: Dict<DiscordCategory>, cs: seq<DiscordCategory>, c: DiscordCategory)
    requires Dicts.Valid(d)
    ensures PutAll(d, cs + [c], CategoryId) == Put(PutAll(d, cs, CategoryId), c.id, c)
    ensures CategoryEntries(cs + [c]) == CategoryEntries(cs) + [CategoryEntry(c)]
  {
    PutAllAppend(d, cs, c, CategoryId);
    assert (cs + [c])[..|cs|] == cs;
  }

  lemma CategoryRecordsAppend(items: seq<Item>, item: Item, serverId: int)
    ensures CategoryRecords(items + [item], serverId) == CategoryRecords(items, serverId) + [CategoryRecord(item, serverId)]
  {
  }

  lemma CategoryStepsPrefix(items: seq<Item>, serverId: int, n: nat)
    requires n <= |items|
    ensures CategorySteps(items, serverId)[..n] == CategorySteps(items[..n], serverId)
  {
  }

  /** On success the output is the records of the category items, in
      guild order. */
  lemma {:induction false} CategoriesInOrder(items: seq<Item>, serverId: int)
    ensures DiscoveredCategories(items, serverId).Ok? ==>
              DiscoveredCategories(items, serverId).value == CategoryRecords(Filter(items, IsCategoryItem), serverId)
    decreases |items|
  {
    var rs := CategorySteps(items, serverId);
    if items != [] && Joined(rs).Ok? {
      var last := |items| - 1;
      var init := items[..last];
      CategoryStepsPrefix(items, serverId, last);
      JoinedOk(rs);
      JoinedStep(rs, last);
      assert rs[..last + 1] == rs;
      CategoriesInOrder(init, serverId);
      FilterLast(items, IsCategoryItem);
      var before := Filter(init, IsCategoryItem);
      if IsCategoryItem(items[last]) {
        CategoryRecordsAppend(before, items[last], serverId);
      } else {
        assert before + [] == before;
      }
    }
  }

  /** Discovery succeeds exactly when every category item makes a valid
      record (a positive id and server id, a name of at most 100
      characters that is not blank); it then returns exactly the category
      items' records, in guild order, with a missing position read as 0. */
  lemma DiscoveredCategoriesSpec(items: seq<Item>, serverId: int)
    ensures DiscoveredCategories(items, serverId).Ok? <==>
              forall i :: 0 <= i < |items| && IsCategoryItem(items[i]) ==>
                items[i].id > 0 && serverId > 0 && |items[i].name| <= 100 && !IsBlank(items[i].name)
    ensures DiscoveredCategories(items, serverId).Ok? ==>
              DiscoveredCategories(items, serverId).value == CategoryRecords(Filter(items, IsCategoryItem), serverId)
    ensures DiscoveredCategories(items, serverId).Err? ==> DiscoveredCategories(items, serverId).error.kind == ValueError
  {
    var rs := CategorySteps(items, serverId);
    JoinedOk(rs);
    CategoriesInOrder(items, serverId);
  }
}
