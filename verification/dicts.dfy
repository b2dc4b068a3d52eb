/** Python's insertion-ordered dict keyed by integer ids: the key order is
    kept as a sequence beside the map. Writing an existing key replaces its
    value in place; writing a new key appends it. Nothing is ever deleted. */
module Dicts {
  import opened Outcomes

  datatype Dict<V> = Dict(keys: seq<int>, entries: map<int, V>)

  /** The key sequence lists each key of the map exactly once. */
  predicate Valid<V>(d: Dict<V>)
  {
    && (forall i, j :: 0 <= i < j < |d.keys| ==> d.keys[i] != d.keys[j])
    && (forall i :: 0 <= i < |d.keys| ==> d.keys[i] in d.entries)
    && (forall k :: k in d.entries ==> k in d.keys)
  }

  function Empty<V>(): (d: Dict<V>)
    ensures Valid(d) && d.entries == map[] && d.keys == []
  {
    Dict([], map[])
  }

  /** `d[k] = v`. */
  function Put<V>(d: Dict<V>, k: int, v: V): (r: Dict<V>)
    requires Valid(d)
    ensures Valid(r)
    ensures r.entries == d.entries[k := v]
    ensures k in d.entries ==> r.keys == d.keys
    ensures k !in d.entries ==> r.keys == d.keys + [k]
  {
    if k in d.entries then Dict(d.keys, d.entries[k := v])
    else Dict(d.keys + [k], d.entries[k := v])
  }

  /** `d.get(k)`. */
  function Get<V>(d: Dict<V>, k: int): (r: Option<V>)
    ensures r.Some? <==> k in d.entries
    ensures r.Some? ==> r.value == d.entries[k]
  {
    if k in d.entries then Some(d.entries[k]) else None
  }

  function ValuesOf<V>(keys: seq<int>, entries: map<int, V>): (vs: seq<V>)
    requires forall i :: 0 <= i < |keys| ==> keys[i] in entries
    ensures |vs| == |keys|
    ensures forall i :: 0 <= i < |keys| ==> vs[i] == entries[keys[i]]
  {
    if keys == [] then [] else [entries[keys[0]]] + ValuesOf(keys[1..], entries)
  }

  /** `list(d.values())`: the values in key insertion order. */
  function Values<V>(d: Dict<V>): (vs: seq<V>)
    requires Valid(d)
    ensures |vs| == |d.keys|
    ensures forall i :: 0 <= i < |d.keys| ==> vs[i] == d.entries[d.keys[i]]
  {
    ValuesOf(d.keys, d.entries)
  }

  /** Every stored value appears in the value listing, and nothing else. */
  lemma ValuesAreEntries<V>(d: Dict<V>, v: V)
    requires Valid(d)
    ensures v in Values(d) <==> exists k :: k in d.entries && d.entries[k] == v
  {
    var vs := Values(d);
    if v in vs {
      var i :| 0 <= i < |vs| && vs[i] == v;
      assert d.keys[i] in d.entries;
    }
    if exists k :: k in d.entries && d.entries[k] == v {
      var k :| k in d.entries && d.entries[k] == v;
      var i :| 0 <= i < |d.keys| && d.keys[i] == k;
      assert vs[i] == v;
    }
  }

  /** Writing an existing key changes only that key's value in the listing;
      writing a new key appends its value. */
  lemma {:induction false} PutValues<V>(d: Dict<V>, k: int, v: V)
    requires Valid(d)
    ensures k !in d.entries ==> Values(Put(d, k, v)) == Values(d) + [v]
    ensures k in d.entries ==> exists i :: 0 <= i < |d.keys| && d.keys[i] == k && Values(Put(d, k, v)) == Values(d)[i := v]
  {
    if k in d.entries {
      var i :| 0 <= i < |d.keys| && d.keys[i] == k;
      PutExistingValues(d, k, v, i);
    } else {
      PutNewValues(d, k, v);
    }
  }

  lemma PutExistingValues<V>(d: Dict<V>, k: int, v: V, i: int)
    requires Valid(d) && 0 <= i < |d.keys| && d.keys[i] == k
    ensures Values(Put(d, k, v)) == Values(d)[i := v]
  {
    var r := Put(d, k, v);
    forall j | 0 <= j < |r.keys|
      ensures Values(r)[j] == Values(d)[i := v][j]
    {
      if j != i {
        assert d.keys[j] != k;
      }
    }
  }

  lemma PutNewValues<V>(d: Dict<V>, k: int, v: V)
    requires Valid(d) && k !in d.entries
    ensures Values(Put(d, k, v)) == Values(d) + [v]
  {
    var r := Put(d, k, v);
    forall j | 0 <= j < |r.keys|
      ensures Values(r)[j] == (Values(d) + [v])[j]
    {
      if j < |d.keys| {
        assert r.keys[j] == d.keys[j] && d.keys[j] != k;
      }
    }
  }

  /** The index of the first element satisfying `p`, if any. */
  function FirstMatch<T>(s: seq<T>, p: T -> bool): (r: Option<nat>)
    ensures r.None? <==> forall i :: 0 <= i < |s| ==> !p(s[i])
    ensures r.Some? ==> r.value < |s| && p(s[r.value]) && forall i :: 0 <= i < r.value ==> !p(s[i])
  {
    if s == [] then None
    else if p(s[0]) then Some(0)
    else match FirstMatch(s[1..], p)
      case None => None
      case Some(i) => Some(i + 1)
  }

  /** The first element satisfying `p`, if any: what an early-return scan
      `for x in s: if p(x): return x` answers. */
  function FirstWhere<T>(s: seq<T>, p: T -> bool): (r: Option<T>)
    ensures r.None? <==> forall i :: 0 <= i < |s| ==> !p(s[i])
    ensures r.Some? ==> exists i :: 0 <= i < |s| && s[i] == r.value && p(s[i]) && (forall j :: 0 <= j < i ==> !p(s[j]))
  {
    match FirstMatch(s, p)
    case None => None
    case Some(i) => Some(s[i])
  }

  /** A match at `i` with none before it is the first match. */
  lemma FirstWhereAt<T>(s: seq<T>, p: T -> bool, i: nat)
    requires i < |s| && p(s[i])
    requires forall j :: 0 <= j < i ==> !p(s[j])
    ensures FirstWhere(s, p) == Some(s[i])
  {
    var r := FirstWhere(s, p);
    var k :| 0 <= k < |s| && s[k] == r.value && p(s[k]) && (forall j :: 0 <= j < k ==> !p(s[j]));
    assert k == i;
  }

  /** `[x for x in s if p(x)]`. */
  function Filter<T(==, !new)>(s: seq<T>, p: T -> bool): (r: seq<T>)
    ensures |r| <= |s|
    ensures forall x :: x in r <==> x in s && p(x)
  {
    if s == [] then []
    else if p(s[0]) then [s[0]] + Filter(s[1..], p)
    else Filter(s[1..], p)
  }

  /** Filtering distributes over concatenation, so it keeps the input
      order. */
  lemma {:induction false} FilterAppend<T(!new)>(a: seq<T>, b: seq<T>, p: T -> bool)
    ensures Filter(a + b, p) == Filter(a, p) + Filter(b, p)
  {
    if a != [] {
      assert (a + b)[0] == a[0] && (a + b)[1..] == a[1..] + b;
      FilterAppend(a[1..], b, p);
      if p(a[0]) {
        assert [a[0]] + (Filter(a[1..], p) + Filter(b, p)) == [a[0]] + Filter(a[1..], p) + Filter(b, p);
      }
    } else {
      assert a + b == b;
    }
  }

  /** Writing each value of `vs` in turn under its own id. */
  function PutAll<V>(d: Dict<V>, vs: seq<V>, id: V -> int): (r: Dict<V>)
    requires Valid(d)
    ensures Valid(r)
    ensures forall k :: k in d.entries ==> k in r.entries
    ensures forall i :: 0 <= i < |vs| ==> id(vs[i]) in r.entries
  {
    if vs == [] then d
    else
      var last := |vs| - 1;
      Put(PutAll(d, vs[..last], id), id(vs[last]), vs[last])
  }

  /** Writing one more value after the others. */
  lemma PutAllAppend<V>(d: Dict<V>, vs: seq<V>, v: V, id: V -> int)
    requires Valid(d)
    ensures PutAll(d, vs + [v], id) == Put(PutAll(d, vs, id), id(v), v)
  {
    assert (vs + [v])[..|vs|] == vs;
  }

  /** Filtering a list with one more element at the end. */
  lemma FilterLast<T(!new)>(s: seq<T>, p: T -> bool)
    requires s != []
    ensures Filter(s, p) == Filter(s[..|s| - 1], p) + (if p(s[|s| - 1]) then [s[|s| - 1]] else [])
  {
    var last := |s| - 1;
    assert s == s[..last] + [s[last]];
    FilterAppend(s[..last], [s[last]], p);
    FilterSingle(s[last], p);
  }

  lemma FilterSingle<T(!new)>(x: T, p: T -> bool)
    ensures Filter([x], p) == if p(x) then [x] else []
  {
    assert [x][1..] == [];
  }

  /** `b` keeps every value of `a` at its place in the listing and may add
      more after them: what writing only new keys does. */
  ghost predicate Extends<V>(a: Dict<V>, b: Dict<V>)
    requires Valid(a) && Valid(b)
  {
    |Values(a)| <= |Values(b)| && forall i :: 0 <= i < |Values(a)| ==> Values(b)[i] == Values(a)[i]
  }

  lemma ExtendsTransitive<V>(a: Dict<V>, b: Dict<V>, c: Dict<V>)
    requires Valid(a) && Valid(b) && Valid(c)
    requires Extends(a, b) && Extends(b, c)
    ensures Extends(a, c)
  {
  }

  /** Writing a new key extends the dict. */
  lemma PutNewExtends<V>(d: Dict<V>, k: int, v: V)
    requires Valid(d) && k !in d.entries
    ensures Extends(d, Put(d, k, v))
  {
    PutValues(d, k, v);
  }
}
