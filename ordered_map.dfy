/** A JavaScript `Map` as the sync routine uses it: entries looked up by key, plus the order in which
    keys were first inserted, which `Map.prototype.values` follows. Keys are strings (transaction
    hashes). Setting a key that is already present replaces its value and keeps its position. */
module OrderedMaps {
  import opened Wrappers

  datatype OrderedMap<V> = OrderedMap(keys: seq<string>, entries: map<string, V>)

  predicate Distinct(s: seq<string>)
  {
    forall i, j :: 0 <= i < j < |s| ==> s[i] != s[j]
  }

  /** The order lists every key exactly once. */
  predicate Valid<V>(m: OrderedMap<V>)
  {
    Distinct(m.keys) && (forall k :: k in m.entries ==> k in m.keys) && (forall k :: k in m.keys ==> k in m.entries)
  }

  /** Every entry is stored under the key the key function gives for its value. */
  predicate KeyedBy<V>(m: OrderedMap<V>, key: V -> string)
  {
    forall k :: k in m.entries ==> key(m.entries[k]) == k
  }

  function Empty<V>(): (r: OrderedMap<V>)
    ensures Valid(r) && r.entries == map[]
  {
    OrderedMap([], map[])
  }

  /** `map.set(k, v)`. */
  function Set<V>(m: OrderedMap<V>, k: string, v: V): (r: OrderedMap<V>)
    ensures Valid(m) ==> Valid(r)
    ensures r.entries == m.entries[k := v]
    ensures k in m.entries ==> r.keys == m.keys
    ensures k !in m.entries ==> r.keys == m.keys + [k]
  {
    if k in m.entries then OrderedMap(m.keys, m.entries[k := v])
    else OrderedMap(m.keys + [k], m.entries[k := v])
  }

  /** `Array.from(map.values())`. */
  function Values<V>(m: OrderedMap<V>): (r: seq<V>)
    requires Valid(m)
  {
    seq(|m.keys|, i requires 0 <= i < |m.keys| => m.entries[m.keys[i]])
  }

  /** `items.forEach(v => map.set(key(v), v))`, a left fold; written from the last item so that
      a loop over the items can keep `Upsert(m0, items[..j], key)` as its invariant. */
  function Upsert<V>(m: OrderedMap<V>, items: seq<V>, key: V -> string): (r: OrderedMap<V>)
    ensures Valid(m) ==> Valid(r)
    decreases |items|
  {
    if items == [] then m
    else
      var prefix := items[..|items| - 1];
      var last := items[|items| - 1];
      Set(Upsert(m, prefix, key), key(last), last)
  }

  /** The last of the items stored under key `k`, if any. */
  function LastWithKey<V>(items: seq<V>, key: V -> string, k: string): (r: Option<V>)
    ensures r.Some? <==> exists i :: 0 <= i < |items| && key(items[i]) == k
    ensures r.Some? ==> key(r.value) == k && r.value in items
    decreases |items|
  {
    if items == [] then None
    else if key(items[|items| - 1]) == k then Some(items[|items| - 1])
    else
      var prefix := items[..|items| - 1];
      assert forall i :: 0 <= i < |prefix| ==> prefix[i] == items[i];
      LastWithKey(prefix, key, k)
  }

  /** What `LastWithKey` finds is the last item with key `k`: no later item has that key, so when a
      key is set several times the last write is the one that is found. */
  lemma {:induction false} LastWithKeyIsLast<V>(items: seq<V>, key: V -> string, k: string)
    ensures var r := LastWithKey(items, key, k);
      r.Some? ==> exists i :: 0 <= i < |items| && items[i] == r.value &&
                              forall j :: i < j < |items| ==> key(items[j]) != k
    decreases |items|
  {
    var r := LastWithKey(items, key, k);
    if items != [] && r.Some? {
      var n := |items| - 1;
      if key(items[n]) == k {
        assert items[n] == r.value;
      } else {
        var prefix := items[..n];
        LastWithKeyIsLast(prefix, key, k);
        var i :| 0 <= i < |prefix| && prefix[i] == r.value &&
                 forall j :: i < j < |prefix| ==> key(prefix[j]) != k;
        assert items[i] == r.value;
        forall j | i < j < |items| ensures key(items[j]) != k {
          if j < n {
            assert items[j] == prefix[j];
          }
        }
      }
    }
  }

  /** The fold holds exactly the keys `m` held and the keys of the items. */
  lemma {:induction false} UpsertDomain<V>(m: OrderedMap<V>, items: seq<V>, key: V -> string, k: string)
    requires Valid(m)
    ensures k in Upsert(m, items, key).entries <==> k in m.entries || LastWithKey(items, key, k).Some?
    decreases |items|
  {
    if items != [] {
      UpsertDomain(m, items[..|items| - 1], key, k);
    }
  }

  /** Keys already present keep their place in the order; new keys only ever go after them. */
  lemma {:induction false} UpsertKeepsOrder<V>(m: OrderedMap<V>, items: seq<V>, key: V -> string)
    requires Valid(m)
    ensures m.keys <= Upsert(m, items, key).keys
    decreases |items|
  {
    if items != [] {
      UpsertKeepsOrder(m, items[..|items| - 1], key);
    }
  }

  /** Last write wins: after the fold a key holds the last item set under it, and a key no item
      was set under keeps the value it had. */
  lemma {:induction false} UpsertLookup<V>(m: OrderedMap<V>, items: seq<V>, key: V -> string, k: string)
    requires Valid(m)
    requires k in m.entries || LastWithKey(items, key, k).Some?
    ensures k in Upsert(m, items, key).entries
    ensures LastWithKey(items, key, k).Some? ==> Upsert(m, items, key).entries[k] == LastWithKey(items, key, k).value
    ensures LastWithKey(items, key, k).None? ==> Upsert(m, items, key).entries[k] == m.entries[k]
    decreases |items|
  {
    if items != [] {
      var prefix := items[..|items| - 1];
      if key(items[|items| - 1]) != k {
        UpsertLookup(m, prefix, key, k);
      }
    }
  }

  /** The values the fold leaves are all stored under their own key, when those of `m` were. */
  lemma {:induction false} UpsertKeyedBy<V>(m: OrderedMap<V>, items: seq<V>, key: V -> string)
    requires Valid(m) && KeyedBy(m, key)
    ensures KeyedBy(Upsert(m, items, key), key)
    decreases |items|
  {
    if items != [] {
      UpsertKeyedBy(m, items[..|items| - 1], key);
    }
  }

  /** A fold whose keys are all present already leaves the order as it is. */
  lemma {:induction false} UpsertPresentKeys<V>(m: OrderedMap<V>, items: seq<V>, key: V -> string)
    requires Valid(m)
    requires forall i :: 0 <= i < |items| ==> key(items[i]) in m.entries
    ensures Upsert(m, items, key).keys == m.keys
    decreases |items|
  {
    if items != [] {
      UpsertPresentKeys(m, items[..|items| - 1], key);
    }
  }

  /** Folding a batch in twice gives the same map as folding it in once. */
  lemma UpsertIdempotent<V>(m: OrderedMap<V>, items: seq<V>, key: V -> string)
    requires Valid(m)
    ensures Upsert(Upsert(m, items, key), items, key) == Upsert(m, items, key)
  {
    var once := Upsert(m, items, key);
    var twice := Upsert(once, items, key);
    forall i | 0 <= i < |items| ensures key(items[i]) in once.entries {
      UpsertDomain(m, items, key, key(items[i]));
    }
    UpsertPresentKeys(once, items, key);
    forall k ensures k in twice.entries <==> k in once.entries {
      UpsertDomain(once, items, key, k);
      UpsertDomain(m, items, key, k);
    }
    forall k | k in twice.entries ensures twice.entries[k] == once.entries[k] {
      UpsertLookup(once, items, key, k);
      if LastWithKey(items, key, k).Some? {
        UpsertLookup(m, items, key, k);
      }
    }
    assert twice.entries == once.entries;
  }

  /** Folding in one batch and then another is folding in both, in that order. */
  lemma UpsertSnoc<V>(m: OrderedMap<V>, items: seq<V>, x: V, key: V -> string)
    ensures Upsert(m, items + [x], key) == Set(Upsert(m, items, key), key(x), x)
  {
    var s := items + [x];
    assert s[..|s| - 1] == items && s[|s| - 1] == x;
  }

  lemma {:induction false} UpsertAppend<V>(m: OrderedMap<V>, a: seq<V>, b: seq<V>, key: V -> string)
    ensures Upsert(Upsert(m, a, key), b, key) == Upsert(m, a + b, key)
    decreases |b|
  {
    if b == [] {
      assert a + b == a;
    } else {
      var b', last := b[..|b| - 1], b[|b| - 1];
      assert b == b' + [last];
      assert a + b == (a + b') + [last];
      UpsertAppend(m, a, b', key);
      UpsertSnoc(m, a + b', last, key);
      UpsertSnoc(Upsert(m, a, key), b', last, key);
    }
  }

  /** No two values of a map stored under its key function have the same key. */
  lemma ValuesDistinctKeys<V>(m: OrderedMap<V>, key: V -> string)
    requires Valid(m) && KeyedBy(m, key)
    ensures forall i, j :: 0 <= i < j < |Values(m)| ==> key(Values(m)[i]) != key(Values(m)[j])
  {
    var vs := Values(m);
    forall i, j | 0 <= i < j < |vs| ensures key(vs[i]) != key(vs[j]) {
      assert key(vs[i]) == m.keys[i] && key(vs[j]) == m.keys[j];
    }
  }

  /** Building a map from a list whose keys are distinct and reading its values gives the list back:
      `Array.from(new Map(xs.map(x => [key(x), x])).values())` is `xs`. */
  lemma {:induction false} ValuesOfDistinct<V>(items: seq<V>, key: V -> string)
    requires forall i, j :: 0 <= i < j < |items| ==> key(items[i]) != key(items[j])
    ensures Values(Upsert(Empty(), items, key)) == items
    decreases |items|
  {
    if items != [] {
      var prefix, last := items[..|items| - 1], items[|items| - 1];
      PrefixDistinct(items, key);
      ValuesOfDistinct(prefix, key);
      DistinctKeysInOrder(prefix, key);
      KeysStep(prefix, last, key);
      assert items == prefix + [last];
      ValuesStep(prefix, last, key);
    }
  }

  /** Dropping the last item keeps the keys distinct, and the last key is not among the others. */
  lemma PrefixDistinct<V>(items: seq<V>, key: V -> string)
    requires items != []
    requires forall i, j :: 0 <= i < j < |items| ==> key(items[i]) != key(items[j])
    ensures var prefix := items[..|items| - 1];
      forall i, j :: 0 <= i < j < |prefix| ==> key(prefix[i]) != key(prefix[j])
    ensures var prefix := items[..|items| - 1];
      forall i :: 0 <= i < |prefix| ==> key(prefix[i]) != key(items[|items| - 1])
  {
    var prefix := items[..|items| - 1];
    assert forall i :: 0 <= i < |prefix| ==> prefix[i] == items[i];
  }

  /** One step of `ValuesOfDistinct`: an item with a new key lands at the end of the values. */
  lemma ValuesStep<V>(prefix: seq<V>, last: V, key: V -> string)
    requires Values(Upsert(Empty(), prefix, key)) == prefix
    requires key(last) !in Upsert(Empty(), prefix, key).entries
    ensures Values(Upsert(Empty(), prefix + [last], key)) == prefix + [last]
  {
    var before := Upsert(Empty(), prefix, key);
    assert (prefix + [last])[..|prefix|] == prefix;
    assert Upsert(Empty(), prefix + [last], key) == Set(before, key(last), last);
    ValuesSetNew(before, key(last), last);
  }

  /** The keys of the items, in order. */
  function KeysOf<V>(items: seq<V>, key: V -> string): seq<string>
  {
    seq(|items|, i requires 0 <= i < |items| => key(items[i]))
  }

  /** With distinct keys, the map's key order is the items' keys in order, one per item. */
  lemma {:induction false} DistinctKeysInOrder<V>(items: seq<V>, key: V -> string)
    requires forall i, j :: 0 <= i < j < |items| ==> key(items[i]) != key(items[j])
    ensures Upsert(Empty(), items, key).keys == KeysOf(items, key)
    decreases |items|
  {
    if items != [] {
      var prefix, last := items[..|items| - 1], items[|items| - 1];
      PrefixDistinct(items, key);
      DistinctKeysInOrder(prefix, key);
      KeysStep(prefix, last, key);
      assert items == prefix + [last];
    }
  }

  /** One step of `DistinctKeysInOrder`: an item with a new key is appended to the key order. */
  lemma KeysStep<V>(prefix: seq<V>, last: V, key: V -> string)
    requires forall i :: 0 <= i < |prefix| ==> key(prefix[i]) != key(last)
    requires Upsert(Empty(), prefix, key).keys == KeysOf(prefix, key)
    ensures key(last) !in Upsert(Empty(), prefix, key).entries
    ensures Upsert(Empty(), prefix + [last], key).keys == KeysOf(prefix + [last], key)
  {
    var before := Upsert(Empty(), prefix, key);
    KeyNotListed(prefix, key, key(last));
    assert key(last) !in before.entries;
    UpsertSnoc(Empty(), prefix, last, key);
    KeysOfSnoc(prefix, last, key);
  }

  /** A key that no item has is not among the items' keys. */
  lemma KeyNotListed<V>(items: seq<V>, key: V -> string, k: string)
    requires forall i :: 0 <= i < |items| ==> key(items[i]) != k
    ensures k !in KeysOf(items, key)
  {
  }

  /** `KeysOf` of a list with one more item. */
  lemma KeysOfSnoc<V>(items: seq<V>, x: V, key: V -> string)
    ensures KeysOf(items + [x], key) == KeysOf(items, key) + [key(x)]
  {
  }

  /** Setting a new key appends its value to `values()`. */
  lemma ValuesSetNew<V>(m: OrderedMap<V>, k: string, v: V)
    requires Valid(m) && k !in m.entries
    ensures Values(Set(m, k, v)) == Values(m) + [v]
  {
    var r := Set(m, k, v);
    forall i | 0 <= i < |m.keys| ensures Values(r)[i] == Values(m)[i] {
      assert m.keys[i] in m.entries;
      assert r.keys[i] == m.keys[i];
    }
  }

  /** The last item under `k` in `a + b` is the last one in `b` if `b` has one, else the last in `a`. */
  lemma {:induction false} LastWithKeyAppend<V>(a: seq<V>, b: seq<V>, key: V -> string, k: string)
    ensures LastWithKey(a + b, key, k) == if LastWithKey(b, key, k).Some? then LastWithKey(b, key, k) else LastWithKey(a, key, k)
    decreases |b|
  {
    if b == [] {
      assert a + b == a;
    } else {
      var ab := a + b;
      assert ab[..|ab| - 1] == a + b[..|b| - 1] && ab[|ab| - 1] == b[|b| - 1];
      if key(b[|b| - 1]) != k {
        LastWithKeyAppend(a, b[..|b| - 1], key, k);
      }
    }
  }

  /** `vs` holds, for every key some item has, exactly the last item with that key, once. */
  ghost predicate MergedFrom<V>(vs: seq<V>, items: seq<V>, key: V -> string)
  {
    (forall i, j :: 0 <= i < j < |vs| ==> key(vs[i]) != key(vs[j])) &&
    (forall i :: 0 <= i < |vs| ==> LastWithKey(items, key, key(vs[i])) == Some(vs[i])) &&
    (forall k :: LastWithKey(items, key, k).Some? ==> exists i :: 0 <= i < |vs| && key(vs[i]) == k)
  }

  /** The values of a map built by folding items into an empty one are the items merged by key. */
  lemma BuiltFrom<V>(items: seq<V>, key: V -> string)
    ensures MergedFrom(Values(Upsert(Empty(), items, key)), items, key)
  {
    var m := Upsert(Empty(), items, key);
    var vs := Values(m);
    UpsertKeyedBy(Empty(), items, key);
    ValuesDistinctKeys(m, key);
    forall i | 0 <= i < |vs| ensures LastWithKey(items, key, key(vs[i])) == Some(vs[i]) {
      var k := m.keys[i];
      assert key(vs[i]) == k;
      UpsertDomain(Empty(), items, key, k);
      UpsertLookup(Empty(), items, key, k);
    }
    forall k | LastWithKey(items, key, k).Some? ensures exists i :: 0 <= i < |vs| && key(vs[i]) == k {
      UpsertDomain(Empty(), items, key, k);
      var i :| 0 <= i < |m.keys| && m.keys[i] == k;
      assert key(vs[i]) == k;
    }
  }

  /** One more item of a list folded in. */
  lemma UpsertStep<V>(m: OrderedMap<V>, items: seq<V>, j: nat, key: V -> string)
    requires j < |items|
    ensures Upsert(m, items[..j + 1], key) == Set(Upsert(m, items[..j], key), key(items[j]), items[j])
  {
    assert items[..j + 1] == items[..j] + [items[j]];
    UpsertSnoc(m, items[..j], items[j], key);
  }

  /** `items.forEach(v => map.set(key(v), v))` on a map held in a local variable. */
  method SetEach<V>(m: OrderedMap<V>, items: seq<V>, key: V -> string) returns (r: OrderedMap<V>)
    ensures r == Upsert(m, items, key)
  {
    r := m;
    var j := 0;
    while j < |items|
      invariant 0 <= j <= |items|
      invariant r == Upsert(m, items[..j], key)
    {
      UpsertStep(m, items, j, key);
      r := Set(r, key(items[j]), items[j]);
      j := j + 1;
    }
    assert items[..j] == items;
  }
}
