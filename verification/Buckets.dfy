/** Report buckets: entries accumulated under a key in a dictionary, as the slab,
    state and HSN summaries all do, and the facts that make their totals agree. */
module Buckets {
  datatype Tally = Tally(units: int, value: int, tax: int, cgst: int, sgst: int, igst: int) {
    function Plus(t: Tally): Tally {
      Tally(units + t.units, value + t.value, tax + t.tax, cgst + t.cgst, sgst + t.sgst, igst + t.igst)
    }
  }

  const ZERO := Tally(0, 0, 0, 0, 0, 0)

  datatype Entry<+K> = Entry(key: K, tally: Tally)

  function TotalAt<K(==)>(entries: seq<Entry<K>>, key: K): Tally {
    if entries == [] then ZERO else
      var n := |entries| - 1;
      if entries[n].key == key then TotalAt(entries[..n], key).Plus(entries[n].tally) else TotalAt(entries[..n], key)
  }

  function Total<K>(entries: seq<Entry<K>>): Tally {
    if entries == [] then ZERO else Total(entries[..|entries| - 1]).Plus(entries[|entries| - 1].tally)
  }

  predicate HasKey<K(==)>(entries: seq<Entry<K>>, key: K) {
    exists i :: 0 <= i < |entries| && entries[i].key == key
  }

  /** What a dictionary of running totals holds once every entry has been added. */
  ghost predicate IsBucketing<K(!new)>(m: map<K, Tally>, entries: seq<Entry<K>>) {
    && (forall k :: k in m <==> HasKey(entries, k))
    && (forall k :: k in m ==> m[k] == TotalAt(entries, k))
  }

  /** Adds one more entry to the dictionary. */
  function Add<K(==)>(m: map<K, Tally>, e: Entry<K>): map<K, Tally> {
    m[e.key := (if e.key in m then m[e.key] else ZERO).Plus(e.tally)]
  }

  lemma HasKeyAdd<K(!new)>(entries: seq<Entry<K>>, e: Entry<K>, k: K)
    ensures HasKey(entries + [e], k) <==> HasKey(entries, k) || e.key == k
  {
    var grown := entries + [e];
    assert grown[|entries|] == e;
    if HasKey(entries, k) {
      var i :| 0 <= i < |entries| && entries[i].key == k;
      assert grown[i].key == k;
    }
  }

  lemma AddKeepsBucketing<K(!new)>(m: map<K, Tally>, entries: seq<Entry<K>>, e: Entry<K>)
    requires IsBucketing(m, entries)
    ensures IsBucketing(Add(m, e), entries + [e])
  {
    var grown := entries + [e];
    assert grown[..|grown| - 1] == entries;
    forall k ensures HasKey(grown, k) <==> HasKey(entries, k) || e.key == k {
      HasKeyAdd(entries, e, k);
    }
    if e.key !in m {
      AbsentKey(entries, e.key);
    }
  }

  lemma {:induction false} AbsentKey<K(!new)>(entries: seq<Entry<K>>, key: K)
    requires !HasKey(entries, key)
    ensures TotalAt(entries, key) == ZERO
  {
    if entries != [] {
      var n := |entries| - 1;
      assert entries == entries[..n] + [entries[n]];
      HasKeyAdd(entries[..n], entries[n], key);
      AbsentKey(entries[..n], key);
    }
  }

  function SumOver<K(==)>(keys: seq<K>, entries: seq<Entry<K>>): Tally {
    if keys == [] then ZERO
    else SumOver(keys[..|keys| - 1], entries).Plus(TotalAt(entries, keys[|keys| - 1]))
  }

  ghost predicate Distinct<K(!new)>(keys: seq<K>) {
    forall i, j :: 0 <= i < j < |keys| ==> keys[i] != keys[j]
  }

  lemma {:induction false} NothingToSum<K>(keys: seq<K>)
    ensures SumOver(keys, []) == ZERO
  {
    if keys != [] {
      NothingToSum(keys[..|keys| - 1]);
    }
  }

  lemma {:induction false} SumOverAdd<K(!new)>(keys: seq<K>, entries: seq<Entry<K>>, e: Entry<K>)
    requires Distinct(keys)
    ensures SumOver(keys, entries + [e])
         == if e.key in keys then SumOver(keys, entries).Plus(e.tally) else SumOver(keys, entries)
  {
    assert (entries + [e])[..|entries|] == entries;
    if keys != [] {
      var n := |keys| - 1;
      SumOverAdd(keys[..n], entries, e);
      assert e.key in keys <==> e.key in keys[..n] || e.key == keys[n];
    }
  }

  /** Bucketing neither loses nor double-counts: the bucket totals add up to the entries. */
  lemma {:induction false} BucketsAddUp<K(!new)>(keys: seq<K>, entries: seq<Entry<K>>)
    requires Distinct(keys)
    requires forall e :: e in entries ==> e.key in keys
    ensures SumOver(keys, entries) == Total(entries)
  {
    if entries == [] {
      NothingToSum(keys);
    } else {
      var n := |entries| - 1;
      assert entries == entries[..n] + [entries[n]];
      BucketsAddUp(keys, entries[..n]);
      SumOverAdd(keys, entries[..n], entries[n]);
    }
  }

  lemma PlusAssociative(a: Tally, b: Tally, c: Tally)
    ensures a.Plus(b).Plus(c) == a.Plus(b.Plus(c))
  {
  }

  lemma OneEntry<K>(e: Entry<K>)
    ensures Total([e]) == e.tally
  {
    assert [e][..0] == [];
  }

  lemma {:induction false} TotalConcat<K>(a: seq<Entry<K>>, b: seq<Entry<K>>)
    ensures Total(a + b) == Total(a).Plus(Total(b))
  {
    if b == [] {
      assert a + b == a;
    } else {
      var n := |b| - 1;
      TotalConcat(a, b[..n]);
      assert (a + b)[..|a| + n] == a + b[..n];
      PlusAssociative(Total(a), Total(b[..n]), b[n].tally);
    }
  }

  // ----- Keys in increasing order -----

  ghost predicate Increasing(keys: seq<int>) {
    forall i, j :: 0 <= i < j < |keys| ==> keys[i] < keys[j]
  }

  function InsertKey(keys: seq<int>, k: int): (r: seq<int>)
    requires Increasing(keys)
    ensures Increasing(r)
    ensures forall x :: x in r <==> x in keys || x == k
  {
    if keys == [] then [k]
    else
      var n := |keys| - 1;
      assert keys == keys[..n] + [keys[n]];
      if keys[n] == k then keys
      else if keys[n] < k then keys + [k]
      else
        var r := InsertKey(keys[..n], k);
        assert forall i :: 0 <= i < |r| ==> r[i] in keys[..n] || r[i] == k;
        r + [keys[n]]
  }

  /** The keys of `entries`, each once, in increasing order. */
  function SortedKeys(entries: seq<Entry<int>>): (r: seq<int>)
    ensures Increasing(r)
    ensures forall k :: k in r <==> HasKey(entries, k)
  {
    if entries == [] then [] else
      var n := |entries| - 1;
      assert entries == entries[..n] + [entries[n]];
      assert forall k :: HasKey(entries, k) <==> HasKey(entries[..n], k) || entries[n].key == k by {
        forall k ensures HasKey(entries, k) <==> HasKey(entries[..n], k) || entries[n].key == k {
          HasKeyAdd(entries[..n], entries[n], k);
        }
      }
      InsertKey(SortedKeys(entries[..n]), entries[n].key)
  }

  /** One turn of a loop that fills a dictionary and keeps its keys in order. */
  lemma SortedBucketStep(m: map<int, Tally>, entries: seq<Entry<int>>, i: nat)
    requires i < |entries| && IsBucketing(m, entries[..i])
    ensures IsBucketing(Add(m, entries[i]), entries[..i + 1])
    ensures SortedKeys(entries[..i + 1]) == InsertKey(SortedKeys(entries[..i]), entries[i].key)
  {
    assert entries[..i + 1] == entries[..i] + [entries[i]];
    assert entries[..i + 1][..i] == entries[..i];
    AddKeepsBucketing(m, entries[..i], entries[i]);
  }

  // ----- Keys in order of first appearance -----

  /** The keys of a dictionary in insertion order. */
  function FirstSeen<K(==)>(entries: seq<Entry<K>>): (r: seq<K>)
  {
    if entries == [] then [] else
      var n := |entries| - 1;
      var r := FirstSeen(entries[..n]);
      if entries[n].key in r then r else r + [entries[n].key]
  }

  lemma {:induction false} FirstSeenCovers<K(!new)>(entries: seq<Entry<K>>)
    ensures Distinct(FirstSeen(entries))
    ensures forall k :: k in FirstSeen(entries) <==> HasKey(entries, k)
    ensures forall e :: e in entries ==> e.key in FirstSeen(entries)
  {
    if entries != [] {
      var n := |entries| - 1;
      FirstSeenCovers(entries[..n]);
      assert entries == entries[..n] + [entries[n]];
      forall k ensures HasKey(entries, k) <==> HasKey(entries[..n], k) || entries[n].key == k {
        HasKeyAdd(entries[..n], entries[n], k);
      }
    }
  }

  lemma BucketStep<K(!new)>(m: map<K, Tally>, entries: seq<Entry<K>>, i: nat)
    requires i < |entries| && IsBucketing(m, entries[..i])
    ensures IsBucketing(Add(m, entries[i]), entries[..i + 1])
    ensures entries[i].key in m <==> entries[i].key in FirstSeen(entries[..i])
    ensures FirstSeen(entries[..i + 1])
         == FirstSeen(entries[..i]) + if entries[i].key in m then [] else [entries[i].key]
  {
    assert entries[..i + 1] == entries[..i] + [entries[i]];
    assert entries[..i + 1][..i] == entries[..i];
    AddKeepsBucketing(m, entries[..i], entries[i]);
    FirstSeenCovers(entries[..i]);
  }

  /** Fills a dictionary of running totals, remembering the order of its keys. */
  method Fill<K(!new, ==)>(entries: seq<Entry<K>>) returns (m: map<K, Tally>, keys: seq<K>)
    ensures IsBucketing(m, entries) && keys == FirstSeen(entries)
  {
    m, keys := map[], [];
    for i := 0 to |entries|
      invariant IsBucketing(m, entries[..i]) && keys == FirstSeen(entries[..i])
    {
      BucketStep(m, entries, i);
      if entries[i].key !in m {
        keys := keys + [entries[i].key];
      }
      m := Add(m, entries[i]);
    }
    assert entries[..|entries|] == entries;
  }
}
