/** The two process-wide stores that keep at most four results within a byte limit, oldest out first. */
module BoundedStore {
  const MaxEntries: nat := 4
  const MaxBytes: nat := 8 * 1024 * 1024

  datatype Entry<K, V> = Entry(key: K, value: V, bytes: nat)

  function Total<K, V>(entries: seq<Entry<K, V>>): nat {
    if entries == [] then 0 else entries[0].bytes + Total(entries[1..])
  }

  lemma {:induction false} TotalMore<K, V>(entries: seq<Entry<K, V>>, e: Entry<K, V>)
    ensures Total(entries + [e]) == Total(entries) + e.bytes
  {
    if entries == [] {
      assert entries + [e] == [e] && [e][1..] == [];
    } else {
      assert (entries + [e])[1..] == entries[1..] + [e];
      TotalMore(entries[1..], e);
    }
  }

  predicate HasKey<K(==), V>(entries: seq<Entry<K, V>>, key: K) {
    exists i :: 0 <= i < |entries| && entries[i].key == key
  }

  predicate DistinctKeys<K(==), V>(entries: seq<Entry<K, V>>) {
    forall i, j :: 0 <= i < j < |entries| ==> entries[i].key != entries[j].key
  }

  /** At most four entries, one per key, whose sizes add up to what is charged and fit the limit. */
  predicate Within<K(==), V>(entries: seq<Entry<K, V>>, charged: nat) {
    |entries| <= MaxEntries && charged == Total(entries) <= MaxBytes && DistinctKeys(entries)
  }

  /** The newest entries that leave room for one more of this size. */
  function Evicted<K, V>(entries: seq<Entry<K, V>>, bytes: nat): seq<Entry<K, V>> {
    if entries == [] || (|entries| < MaxEntries && Total(entries) + bytes <= MaxBytes) then entries
    else Evicted(entries[1..], bytes)
  }

  /** No entry goes that did not have to: one more would not fit beside the new one. */
  lemma {:induction false} EvictedLeast<K, V>(entries: seq<Entry<K, V>>, bytes: nat) returns (n: nat)
    requires bytes <= MaxBytes
    ensures n <= |entries| && Evicted(entries, bytes) == entries[n..]
    ensures |entries[n..]| < MaxEntries && Total(entries[n..]) + bytes <= MaxBytes
    ensures n > 0 ==> |entries[n - 1..]| >= MaxEntries || Total(entries[n - 1..]) + bytes > MaxBytes
  {
    if entries == [] || (|entries| < MaxEntries && Total(entries) + bytes <= MaxBytes) {
      n := 0;
      assert entries[0..] == entries;
    } else {
      n := EvictedLeast(entries[1..], bytes);
      assert entries[1..][n..] == entries[n + 1..];
      if n > 0 { assert entries[1..][n - 1..] == entries[n..]; } else { assert entries[0..] == entries; }
      n := n + 1;
    }
  }

  class Store<K(==), V> {
    var entries: seq<Entry<K, V>>
    var charged: nat

    ghost predicate Valid()
      reads this
    {
      Within(entries, charged)
    }

    constructor ()
      ensures Valid() && entries == []
    {
      entries, charged := [], 0;
    }

    /** Keep a result unless it is known already or too large by itself; make room oldest first. */
    method Remember(key: K, value: V, bytes: nat)
      requires Valid()
      modifies this
      ensures Valid()
      ensures entries == if bytes > MaxBytes || HasKey(old(entries), key) then old(entries)
                         else Evicted(old(entries), bytes) + [Entry(key, value, bytes)]
    {
      if bytes > MaxBytes { return; }
      var found := Find(key);
      if found { return; }
      while |entries| >= MaxEntries || charged + bytes > MaxBytes
        invariant Valid() && !HasKey(entries, key) && Evicted(entries, bytes) == Evicted(old(entries), bytes)
        decreases |entries|
      {
        charged := charged - entries[0].bytes;
        entries := entries[1..];
      }
      TotalMore(entries, Entry(key, value, bytes));
      entries := entries + [Entry(key, value, bytes)];
      charged := charged + bytes;
    }

    method Find(key: K) returns (found: bool)
      ensures found <==> HasKey(entries, key)
    {
      for i := 0 to |entries|
        invariant forall j :: 0 <= j < i ==> entries[j].key != key
      {
        if entries[i].key == key { return true; }
      }
      return false;
    }
  }
}
