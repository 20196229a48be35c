/** A `LinkedHashMap<K, List<V>>` filled with `computeIfAbsent(k, ...).add(v)`:
    keys keep the order of their first insertion and each key owns the list of
    values added under it, duplicates included. */
module LinkedMultimaps {

  import opened Seqs

  datatype LinkedMultimap<K(!new), V> = LinkedMultimap(keys: seq<K>, lists: map<K, seq<V>>)
  {
    /** The map's invariant: each key once, keys and map domain agree, and a
        key is only ever present with a non-empty list. */
    ghost predicate Valid() {
      && (forall i, j :: 0 <= i < j < |keys| ==> keys[i] != keys[j])
      && (forall k :: k in lists <==> k in keys)
      && (forall k :: k in lists ==> |lists[k]| > 0)
    }
  }

  function Empty<K(!new), V>(): (m: LinkedMultimap<K, V>)
    ensures m.Valid() && m.keys == []
    ensures forall k :: Get(m, k) == []
  {
    LinkedMultimap([], map[])
  }

  /** `get(k)`, with an absent key read as the empty list. */
  function Get<K(!new), V>(m: LinkedMultimap<K, V>, k: K): seq<V> {
    if k in m.lists then m.lists[k] else []
  }

  /** `computeIfAbsent(k, x -> new ArrayList<>()).add(v)`. */
  function Add<K(!new), V>(m: LinkedMultimap<K, V>, k: K, v: V): (m': LinkedMultimap<K, V>)
    requires m.Valid()
    ensures m'.Valid()
    ensures m'.keys == if k in m.keys then m.keys else m.keys + [k]
    ensures Get(m', k) == Get(m, k) + [v]
    ensures forall k' :: k' != k ==> Get(m', k') == Get(m, k')
  {
    if k in m.lists then LinkedMultimap(m.keys, m.lists[k := m.lists[k] + [v]])
    else LinkedMultimap(m.keys + [k], m.lists[k := [v]])
  }

  lemma GetNonEmptyIffKey<K(!new), V>(m: LinkedMultimap<K, V>, k: K)
    requires m.Valid()
    ensures |Get(m, k)| > 0 <==> k in m.keys
  {
  }

  /** A run of additions `(k, v)`, applied in order. */
  function AddAll<K(!new), V>(m: LinkedMultimap<K, V>, entries: seq<(K, V)>): (m': LinkedMultimap<K, V>)
    requires m.Valid()
    ensures m'.Valid()
    decreases |entries|
  {
    if entries == [] then m
    else
      var last := entries[|entries| - 1];
      Add(AddAll(m, entries[..|entries| - 1]), last.0, last.1)
  }

  function EntryKeys<K, V>(entries: seq<(K, V)>): (ks: seq<K>)
    ensures |ks| == |entries| && forall i :: 0 <= i < |entries| ==> ks[i] == entries[i].0
  {
    seq(|entries|, i requires 0 <= i < |entries| => entries[i].0)
  }

  /** The values added under `k`, in the order of the additions. */
  function ValuesFor<K(==), V>(entries: seq<(K, V)>, k: K): seq<V>
    decreases |entries|
  {
    if entries == [] then []
    else
      var last := entries[|entries| - 1];
      ValuesFor(entries[..|entries| - 1], k) + (if last.0 == k then [last.1] else [])
  }

  /** Repeated additions accumulate: every value added under `k` is kept, in
      order, duplicates included, after what `k` held before. */
  lemma {:induction false} AddAllAccumulates<K(!new), V>(m: LinkedMultimap<K, V>, entries: seq<(K, V)>, k: K)
    requires m.Valid()
    ensures Get(AddAll(m, entries), k) == Get(m, k) + ValuesFor(entries, k)
    decreases |entries|
  {
    if entries != [] {
      AddAllAccumulates(m, entries[..|entries| - 1], k);
    }
  }

  lemma {:induction false} AddAllKeysAreDedup<K(!new), V>(entries: seq<(K, V)>)
    ensures AddAll(Empty(), entries).keys == Dedup(EntryKeys(entries))
    decreases |entries|
  {
    if entries != [] {
      var n := |entries|;
      AddAllKeysAreDedup(entries[..n - 1]);
      assert EntryKeys(entries)[..n - 1] == EntryKeys(entries[..n - 1]);
    }
  }

  /** Insertion order: starting from an empty map, the keys are exactly the keys
      added, each once, ordered by their first addition. */
  lemma AddAllKeepsInsertionOrder<K(!new), V>(entries: seq<(K, V)>)
    ensures var ks := AddAll(Empty(), entries).keys;
      && (forall i, j :: 0 <= i < j < |ks| ==> ks[i] != ks[j])
      && (forall k :: k in ks <==> k in EntryKeys(entries))
      && (forall i, j :: 0 <= i < j < |ks| ==>
            FirstIndex(EntryKeys(entries), ks[i]) < FirstIndex(EntryKeys(entries), ks[j]))
  {
    AddAllKeysAreDedup(entries);
    DedupOrdered(EntryKeys(entries));
  }
}
