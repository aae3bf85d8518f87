/** Tables kept as a list of values and an index of their keys. */
module KeyedTables {
  import opened Wrappers

  datatype Parts<K, V> = Parts(index: map<K, nat>, keys: seq<K>, values: seq<V>)

  /** The index names each place once, under its own key. */
  ghost predicate Indexed<K, V>(t: Parts<K, V>) {
    && |t.keys| == |t.values|
    && (forall k | k in t.index :: t.index[k] < |t.keys| && t.keys[t.index[k]] == k)
    && (forall i | 0 <= i < |t.keys| :: t.keys[i] in t.index && t.index[t.keys[i]] == i)
  }

  type Table<K, V> = t: Parts<K, V> | Indexed(t) witness Parts(map[], [], [])

  function Lookup<K, V>(t: Table<K, V>, k: K): Option<V> {
    if k in t.index then Some(t.values[t.index[k]]) else None
  }

  /** Written over the value of the same key, or at the end. */
  function Inserted<K, V>(t: Table<K, V>, k: K, v: V): Table<K, V> {
    if k in t.index then t.(values := t.values[t.index[k] := v])
    else Parts(t.index[k := |t.keys|], t.keys + [k], t.values + [v])
  }

  /** Written only if the key is missing. */
  function Added<K, V>(t: Table<K, V>, k: K, v: V): Table<K, V> {
    if k in t.index then t else Inserted(t, k, v)
  }

  lemma InsertedLookup<K, V>(t: Table<K, V>, k: K, v: V, other: K)
    ensures Lookup(Inserted(t, k, v), other) == if other == k then Some(v) else Lookup(t, other)
  {}

  function Over<V>(top: Option<V>, below: Option<V>): Option<V> {
    if top.Some? then top else below
  }

  /** What the first n places have under a key. */
  function FirstLookup<K, V>(t: Table<K, V>, n: nat, k: K): Option<V> {
    if k in t.index && t.index[k] < n then Some(t.values[t.index[k]]) else None
  }

  lemma FirstLookupStep<K, V>(t: Table<K, V>, n: nat, k: K)
    requires n < |t.keys|
    ensures FirstLookup(t, n + 1, k) == if k == t.keys[n] then Some(t.values[n]) else FirstLookup(t, n, k)
    ensures FirstLookup(t, n, t.keys[n]).None?
  {}

  /** The first n places of another table written over a table. */
  ghost function Absorbed<K, V>(t: Table<K, V>, other: Table<K, V>, n: nat): Table<K, V>
    requires n <= |other.keys|
  {
    if n == 0 then t else Inserted(Absorbed(t, other, n - 1), other.keys[n - 1], other.values[n - 1])
  }

  ghost function Completed<K, V>(t: Table<K, V>, other: Table<K, V>, n: nat): Table<K, V>
    requires n <= |other.keys|
  {
    if n == 0 then t else Added(Completed(t, other, n - 1), other.keys[n - 1], other.values[n - 1])
  }

  lemma {:induction false} AbsorbedLookup<K, V>(t: Table<K, V>, other: Table<K, V>, n: nat, k: K)
    requires n <= |other.keys|
    ensures Lookup(Absorbed(t, other, n), k) == Over(FirstLookup(other, n, k), Lookup(t, k))
  {
    if n > 0 {
      AbsorbedLookup(t, other, n - 1, k);
      InsertedLookup(Absorbed(t, other, n - 1), other.keys[n - 1], other.values[n - 1], k);
      FirstLookupStep(other, n - 1, k);
    }
  }

  lemma {:induction false} CompletedLookup<K, V>(t: Table<K, V>, other: Table<K, V>, n: nat, k: K)
    requires n <= |other.keys|
    ensures Lookup(Completed(t, other, n), k) == Over(Lookup(t, k), FirstLookup(other, n, k))
  {
    if n > 0 {
      CompletedLookup(t, other, n - 1, k);
      InsertedLookup(Completed(t, other, n - 1), other.keys[n - 1], other.values[n - 1], k);
      FirstLookupStep(other, n - 1, k);
    }
  }

  lemma InsertedStays<K, V>(t: Table<K, V>, k: K, v: V)
    ensures t.keys <= Inserted(t, k, v).keys && (k !in t.index ==> t.values <= Inserted(t, k, v).values)
  {}

  /** Nothing moves: new places come after the old ones. */
  lemma {:induction false} PlacesStay<K, V>(t: Table<K, V>, other: Table<K, V>, n: nat)
    requires n <= |other.keys|
    ensures t.keys <= Absorbed(t, other, n).keys
    ensures t.keys <= Completed(t, other, n).keys && t.values <= Completed(t, other, n).values
  {
    if n > 0 {
      PlacesStay(t, other, n - 1);
      InsertedStays(Absorbed(t, other, n - 1), other.keys[n - 1], other.values[n - 1]);
      InsertedStays(Completed(t, other, n - 1), other.keys[n - 1], other.values[n - 1]);
    }
  }

  /** after has what top has, and elsewhere what below has. */
  ghost predicate Overlaid<K(!new), V>(below: Table<K, V>, top: Table<K, V>, after: Table<K, V>) {
    forall k :: Lookup(after, k) == Over(Lookup(top, k), Lookup(below, k))
  }

  /** A whole table absorbed lies over what there was; one that completes lies under it. */
  lemma WholeOverlays<K(!new), V>(t: Table<K, V>, other: Table<K, V>)
    ensures Overlaid(t, other, Absorbed(t, other, |other.keys|))
    ensures Overlaid(other, t, Completed(t, other, |other.keys|))
  {
    forall k
      ensures Lookup(Absorbed(t, other, |other.keys|), k) == Over(Lookup(other, k), Lookup(t, k))
      ensures Lookup(Completed(t, other, |other.keys|), k) == Over(Lookup(t, k), Lookup(other, k))
    {
      AbsorbedLookup(t, other, |other.keys|, k);
      CompletedLookup(t, other, |other.keys|, k);
    }
  }

  // ---------- lists in which the last of a key counts ----------

  /** The index leads from each key of the list to its last place. */
  ghost predicate LastIndexed<K>(index: map<K, nat>, keys: seq<K>) {
    && (forall k | k in index :: index[k] < |keys| && keys[index[k]] == k)
    && (forall i | 0 <= i < |keys| :: keys[i] in index && i <= index[keys[i]])
  }

  lemma Appended<K>(index: map<K, nat>, keys: seq<K>, k: K)
    requires LastIndexed(index, keys)
    ensures LastIndexed(index[k := |keys|], keys + [k])
  {}

  // ---------- lists that are completed by name ----------

  ghost predicate HasKey<K, V>(values: seq<V>, keyOf: V -> K, key: K) {
    exists i :: 0 <= i < |values| && keyOf(values[i]) == key
  }

  /** The values of more after those there are, each unless what it is sought as is
      the key of one by then. */
  ghost function CompletedBy<K, V>(values: seq<V>, more: seq<V>, keyOf: V -> K, soughtAs: V -> K,
          counts: V -> bool): seq<V> {
    if more == [] then values
    else
      var done := CompletedBy(values, more[..|more| - 1], keyOf, soughtAs, counts);
      var last := more[|more| - 1];
      if counts(last) && !HasKey(done, keyOf, soughtAs(last)) then done + [last] else done
  }

  lemma HasKeyAfter<K, V>(values: seq<V>, x: V, keyOf: V -> K, key: K)
    ensures HasKey(values + [x], keyOf, key) <==> HasKey(values, keyOf, key) || keyOf(x) == key
  {
    var all := values + [x];
    assert keyOf(all[|values|]) == keyOf(x);
    forall i | 0 <= i < |values|
      ensures keyOf(all[i]) == keyOf(values[i])
    {
    }
  }

  /** What has been added was missing at its turn, and comes from more. */
  ghost predicate OnlyMissing<K, V>(values: seq<V>, after: seq<V>, more: seq<V>, keyOf: V -> K,
          soughtAs: V -> K, counts: V -> bool) {
    && values <= after
    && forall i :: |values| <= i < |after| ==> counts(after[i]) && after[i] in more && !HasKey(after[..i], keyOf, soughtAs(after[i]))
  }

  /** Nothing that counts is missing: it is there, or something with its key is. */
  ghost predicate NoneMissing<K, V>(after: seq<V>, more: seq<V>, keyOf: V -> K, soughtAs: V -> K, counts: V -> bool) {
    forall k :: 0 <= k < |more| && counts(more[k]) ==> HasKey(after, keyOf, soughtAs(more[k])) || more[k] in after
  }

  lemma {:induction false} CompletedByExact<K, V>(values: seq<V>, more: seq<V>, keyOf: V -> K, soughtAs: V -> K,
          counts: V -> bool)
    ensures var after := CompletedBy(values, more, keyOf, soughtAs, counts);
            OnlyMissing(values, after, more, keyOf, soughtAs, counts) && NoneMissing(after, more, keyOf, soughtAs, counts)
    decreases |more|
  {
    if more != [] {
      var init := more[..|more| - 1];
      var done := CompletedBy(values, init, keyOf, soughtAs, counts);
      var last := more[|more| - 1];
      CompletedByExact(values, init, keyOf, soughtAs, counts);
      var after := CompletedBy(values, more, keyOf, soughtAs, counts);
      forall k | 0 <= k < |more| && counts(more[k])
        ensures HasKey(after, keyOf, soughtAs(more[k])) || more[k] in after
      {
        if k < |init| {
          assert init[k] == more[k];
        }
        HasKeyAfter(done, last, keyOf, soughtAs(more[k]));
      }
      forall i | |values| <= i < |after|
        ensures counts(after[i]) && after[i] in more && !HasKey(after[..i], keyOf, soughtAs(after[i]))
      {
        if i < |done| {
          assert after[i] == done[i] && after[..i] == done[..i];
        } else {
          assert after[..i] == done;
        }
      }
    }
  }

  lemma CompletedByStep<K, V>(values: seq<V>, more: seq<V>, n: nat, keyOf: V -> K, soughtAs: V -> K, counts: V -> bool)
    requires n < |more|
    ensures var done := CompletedBy(values, more[..n], keyOf, soughtAs, counts);
            CompletedBy(values, more[..n + 1], keyOf, soughtAs, counts)
            == if counts(more[n]) && !HasKey(done, keyOf, soughtAs(more[n])) then done + [more[n]] else done
  {
    assert more[..n + 1][..n] == more[..n];
  }
}
