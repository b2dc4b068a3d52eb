/** Message history ordering shared by the stores: messages are ordered by
    (timestamp, id) ascending, the way `sorted(..., key=lambda m:
    (m.timestamp, m.id))` orders them, and a query keeps the most recent
    ones. Timestamps are modelled by integers; only their order matters. */
module History {

  datatype Key = Key(timestamp: int, id: int)

  /** Lexicographic order on (timestamp, id), as Python compares tuples. */
  predicate Le(a: Key, b: Key)
  {
    a.timestamp < b.timestamp || (a.timestamp == b.timestamp && a.id <= b.id)
  }

  lemma LeTotal(a: Key, b: Key)
    ensures Le(a, b) || Le(b, a)
    ensures Le(a, b) && Le(b, a) ==> a == b
  {
  }

  predicate Sorted<T>(s: seq<T>, key: T -> Key)
  {
    forall i, j :: 0 <= i < j < |s| ==> Le(key(s[i]), key(s[j]))
  }

  /** Inserts `x` before the first element whose key is not below it, so an
      element already present with an equal key stays after `x`. */
  function Insert<T(==)>(x: T, s: seq<T>, key: T -> Key): (r: seq<T>)
    requires Sorted(s, key)
    ensures Sorted(r, key)
    ensures |r| == |s| + 1
    ensures multiset(r) == multiset(s) + multiset{x}
    ensures r[0] == x || (s != [] && r[0] == s[0])
  {
    if s == [] || Le(key(x), key(s[0])) then [x] + s
    else
      var t := Insert(x, s[1..], key);
      assert s == [s[0]] + s[1..];
      InsertBound(x, s, t, key);
      ConsSorted(s[0], t, key);
      [s[0]] + t
  }

  /** What is inserted after the head of `s` is ordered no earlier than
      that head. */
  lemma InsertBound<T>(x: T, s: seq<T>, t: seq<T>, key: T -> Key)
    requires Sorted(s, key) && s != [] && !Le(key(x), key(s[0]))
    requires multiset(t) == multiset(s[1..]) + multiset{x}
    ensures forall y :: y in t ==> Le(key(s[0]), key(y))
  {
    forall y | y in t
      ensures Le(key(s[0]), key(y))
    {
      assert y in multiset(t);
      if y != x {
        assert y in multiset(s[1..]);
        var i :| 0 <= i < |s[1..]| && s[1..][i] == y;
        assert s[i + 1] == y;
      }
    }
  }

  lemma ConsSorted<T>(h: T, t: seq<T>, key: T -> Key)
    requires Sorted(t, key) && forall y :: y in t ==> Le(key(h), key(y))
    ensures Sorted([h] + t, key)
  {
    var r := [h] + t;
    forall i, j | 0 <= i < j < |r|
      ensures Le(key(r[i]), key(r[j]))
    {
      assert r[j] == t[j - 1];
      if i > 0 {
        assert r[i] == t[i - 1];
      }
    }
  }

  /** Python's `sorted` with the (timestamp, id) key. */
  function SortBy<T(==)>(s: seq<T>, key: T -> Key): (r: seq<T>)
    ensures Sorted(r, key)
    ensures |r| == |s|
    ensures multiset(r) == multiset(s)
  {
    if s == [] then []
    else
      assert s == [s[0]] + s[1..];
      Insert(s[0], SortBy(s[1..], key), key)
  }

  /** The last `n` elements (all of them when there are fewer). */
  function Last<T>(s: seq<T>, n: nat): (r: seq<T>)
    ensures |r| == if n < |s| then n else |s|
    ensures r == s[|s| - |r|..]
  {
    if n < |s| then s[|s| - n..] else s
  }

  /** The keys of distinct elements of `s` are distinct. */
  predicate KeysDistinct<T(!new)>(s: multiset<T>, key: T -> Key)
  {
    forall x, y :: x in s && y in s && key(x) == key(y) ==> x == y
  }

  /** When keys identify their elements, there is exactly one sorted
      arrangement of a collection: any two sorted permutations agree. */
  lemma {:induction false} SortedUnique<T(!new)>(a: seq<T>, b: seq<T>, key: T -> Key)
    requires Sorted(a, key) && Sorted(b, key)
    requires multiset(a) == multiset(b)
    requires KeysDistinct(multiset(a), key)
    ensures a == b
    decreases |a|
  {
    if a != [] {
      SameFirst(a, b, key);
      SameRest(a, b);
      KeysDistinctRest(a, key);
      SortedRest(a, key);
      SortedRest(b, key);
      SortedUnique(a[1..], b[1..], key);
      assert a == [a[0]] + a[1..] && b == [b[0]] + b[1..];
    }
  }

  /** Two sorted permutations with identifying keys start alike. */
  lemma SameFirst<T(!new)>(a: seq<T>, b: seq<T>, key: T -> Key)
    requires Sorted(a, key) && Sorted(b, key)
    requires multiset(a) == multiset(b) && a != []
    requires KeysDistinct(multiset(a), key)
    ensures b != [] && a[0] == b[0]
  {
    assert |b| == |a| by { assert |multiset(a)| == |multiset(b)|; }
    assert a[0] in multiset(b);
    assert b[0] in multiset(a);
    var i :| 0 <= i < |b| && b[i] == a[0];
    var j :| 0 <= j < |a| && a[j] == b[0];
    assert Le(key(b[0]), key(a[0]));
    assert Le(key(a[0]), key(b[0]));
  }

  /** Removing a common first element leaves equal multisets. */
  lemma SameRest<T>(a: seq<T>, b: seq<T>)
    requires a != [] && b != [] && a[0] == b[0] && multiset(a) == multiset(b)
    ensures multiset(a[1..]) == multiset(b[1..])
  {
    assert a == [a[0]] + a[1..];
    assert b == [b[0]] + b[1..];
    assert multiset(a) == multiset{a[0]} + multiset(a[1..]);
    assert multiset(b) == multiset{b[0]} + multiset(b[1..]);
    assert multiset(a[1..]) == multiset(a) - multiset{a[0]};
    assert multiset(b[1..]) == multiset(b) - multiset{b[0]};
  }

  lemma KeysDistinctRest<T(!new)>(a: seq<T>, key: T -> Key)
    requires a != [] && KeysDistinct(multiset(a), key)
    ensures KeysDistinct(multiset(a[1..]), key)
  {
    assert a == [a[0]] + a[1..];
    assert multiset(a[1..]) <= multiset(a);
  }

  lemma SortedRest<T>(a: seq<T>, key: T -> Key)
    requires a != [] && Sorted(a, key)
    ensures Sorted(a[1..], key)
  {
  }

  /** The latest-`n` window of a sorted history is itself sorted and drawn
      from the history. */
  lemma LastIsSlice<T>(s: seq<T>, n: nat, key: T -> Key)
    requires Sorted(s, key)
    ensures var r := Last(s, n);
      && Sorted(r, key)
      && multiset(r) <= multiset(s)
      && (forall x :: x in r ==> x in s)
  {
    var r := Last(s, n);
    var k := |s| - |r|;
    assert s == s[..k] + r;
  }

  /** Every element the latest-`n` window leaves out is ordered no later
      than every element it keeps. */
  lemma LastIsLatest<T>(s: seq<T>, n: nat, key: T -> Key)
    requires Sorted(s, key)
    ensures var r := Last(s, n);
      forall x, y :: x in r && y in multiset(s) - multiset(r) ==> Le(key(y), key(x))
  {
    var r := Last(s, n);
    var k := |s| - |r|;
    assert s == s[..k] + r;
    assert multiset(s) - multiset(r) == multiset(s[..k]);
    forall x, y | x in r && y in multiset(s) - multiset(r) ensures Le(key(y), key(x)) {
      assert y in s[..k];
      var i :| 0 <= i < k && s[i] == y;
      var j :| 0 <= j < |r| && r[j] == x;
      assert s[k + j] == x;
    }
  }

  function Min(a: int, b: int): int
  {
    if a < b then a else b
  }

  /** `ordered[-limit:] if limit > 0 else ordered` where `ordered` is `s`
      sorted by key: with a positive limit the latest `limit` elements, with
      a limit of zero or less all of them, always in ascending key order. */
  function Recent<T(==)>(s: seq<T>, key: T -> Key, limit: int): (r: seq<T>)
    ensures Sorted(r, key)
    ensures multiset(r) <= multiset(s)
    ensures limit <= 0 ==> multiset(r) == multiset(s)
    ensures limit > 0 ==> |r| == Min(limit, |s|)
    ensures forall x, y :: x in r && y in multiset(s) - multiset(r) ==> Le(key(y), key(x))
  {
    var ordered := SortBy(s, key);
    var n := if limit > 0 then limit else |ordered|;
    LastIsSlice(ordered, n, key);
    LastIsLatest(ordered, n, key);
    Last(ordered, n)
  }
}
