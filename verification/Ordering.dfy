/** The order report rows are listed in: unclassified codes last, then by code, then by rate. */
module Ordering {

  /** Code points decide, and a shorter text comes before its extensions. */
  predicate CodeLe(a: string, b: string) {
    if a == [] then true
    else if b == [] then false
    else if a[0] != b[0] then a[0] < b[0]
    else CodeLe(a[1..], b[1..])
  }

  lemma {:induction false} CodeTotal(a: string, b: string)
    ensures CodeLe(a, b) || CodeLe(b, a)
  {
    if a != [] && b != [] && a[0] == b[0] {
      CodeTotal(a[1..], b[1..]);
    }
  }

  lemma {:induction false} CodeTransitive(a: string, b: string, c: string)
    requires CodeLe(a, b) && CodeLe(b, c)
    ensures CodeLe(a, c)
  {
    if a != [] && b != [] && c != [] && a[0] == b[0] == c[0] {
      CodeTransitive(a[1..], b[1..], c[1..]);
    }
  }

  lemma {:induction false} CodeAntisymmetric(a: string, b: string)
    requires CodeLe(a, b) && CodeLe(b, a)
    ensures a == b
  {
    if a != [] && b != [] {
      CodeAntisymmetric(a[1..], b[1..]);
    }
  }

  datatype Place = Place(last: bool, code: string, rate: int)

  predicate PlaceLe(a: Place, b: Place) {
    if a.last != b.last then b.last
    else if a.code != b.code then CodeLe(a.code, b.code)
    else a.rate <= b.rate
  }

  lemma PlaceTotal(a: Place, b: Place)
    ensures PlaceLe(a, b) || PlaceLe(b, a)
  {
    CodeTotal(a.code, b.code);
  }

  lemma PlaceTransitive(a: Place, b: Place, c: Place)
    requires PlaceLe(a, b) && PlaceLe(b, c)
    ensures PlaceLe(a, c)
  {
    if a.last == b.last == c.last && a.code != b.code && b.code != c.code {
      CodeTransitive(a.code, b.code, c.code);
      if a.code == c.code {
        CodeAntisymmetric(a.code, b.code);
      }
    }
  }

  predicate Sorted<K>(keys: seq<K>, at: K -> Place) {
    forall i, j :: 0 <= i < j < |keys| ==> PlaceLe(at(keys[i]), at(keys[j]))
  }

  function Insert<K>(keys: seq<K>, k: K, at: K -> Place): seq<K> {
    if keys == [] || PlaceLe(at(keys[|keys| - 1]), at(k)) then keys + [k]
    else Insert(keys[..|keys| - 1], k, at) + [keys[|keys| - 1]]
  }

  function SortBy<K>(keys: seq<K>, at: K -> Place): seq<K> {
    if keys == [] then [] else Insert(SortBy(keys[..|keys| - 1], at), keys[|keys| - 1], at)
  }

  lemma {:induction false} InsertKeeps<K>(keys: seq<K>, k: K, at: K -> Place)
    ensures multiset(Insert(keys, k, at)) == multiset(keys) + multiset{k}
  {
    if keys != [] && !PlaceLe(at(keys[|keys| - 1]), at(k)) {
      InsertKeeps(keys[..|keys| - 1], k, at);
      assert keys == keys[..|keys| - 1] + [keys[|keys| - 1]];
    }
  }

  lemma InMultiset<K>(a: seq<K>, b: seq<K>, k: K)
    requires multiset(a) == multiset(b) + multiset{k}
    ensures forall x :: x in a <==> x in b || x == k
  {
    forall x ensures x in a <==> x in b || x == k {
      assert x in a <==> x in multiset(a);
      assert x in b <==> x in multiset(b);
    }
  }

  lemma {:induction false} InsertSorts<K>(keys: seq<K>, k: K, at: K -> Place)
    requires Sorted(keys, at)
    ensures Sorted(Insert(keys, k, at), at)
  {
    if keys != [] {
      var n := |keys| - 1;
      if PlaceLe(at(keys[n]), at(k)) {
        forall i | 0 <= i < n ensures PlaceLe(at(keys[i]), at(k)) {
          PlaceTransitive(at(keys[i]), at(keys[n]), at(k));
        }
      } else {
        InsertSorts(keys[..n], k, at);
        InsertKeeps(keys[..n], k, at);
        InMultiset(Insert(keys[..n], k, at), keys[..n], k);
        PlaceTotal(at(keys[n]), at(k));
        AllBefore(Insert(keys[..n], k, at), keys[..n], k, keys[n], at);
      }
    }
  }

  lemma AllBefore<K>(r: seq<K>, keys: seq<K>, k: K, last: K, at: K -> Place)
    requires forall x :: x in r <==> x in keys || x == k
    requires PlaceLe(at(k), at(last)) && forall i :: 0 <= i < |keys| ==> PlaceLe(at(keys[i]), at(last))
    ensures forall i :: 0 <= i < |r| ==> PlaceLe(at(r[i]), at(last))
  {
    forall i | 0 <= i < |r| ensures PlaceLe(at(r[i]), at(last)) {
      var x := r[i];
      assert x in r;
    }
  }

  /** Sorting lists the same keys, in order. */
  lemma {:induction false} SortByIsSorting<K>(keys: seq<K>, at: K -> Place)
    ensures multiset(SortBy(keys, at)) == multiset(keys) && Sorted(SortBy(keys, at), at)
    ensures |SortBy(keys, at)| == |keys| && forall k :: k in SortBy(keys, at) <==> k in keys
  {
    if keys != [] {
      var n := |keys| - 1;
      SortByIsSorting(keys[..n], at);
      InsertKeeps(SortBy(keys[..n], at), keys[n], at);
      InsertSorts(SortBy(keys[..n], at), keys[n], at);
      assert keys == keys[..n] + [keys[n]];
    }
    SameMembers(SortBy(keys, at), keys);
  }

  lemma SameMembers<K>(a: seq<K>, b: seq<K>)
    requires multiset(a) == multiset(b)
    ensures |a| == |b| && forall k :: k in a <==> k in b
  {
    assert |multiset(a)| == |a| && |multiset(b)| == |b|;
    forall k ensures k in a <==> k in b {
      assert k in a <==> k in multiset(a);
      assert k in b <==> k in multiset(b);
    }
  }

  /** Lists of the same length and members repeat nothing together. */
  lemma {:induction false} SortedStaysDistinct<K(!new)>(a: seq<K>, b: seq<K>)
    requires multiset(a) == multiset(b) && forall i, j :: 0 <= i < j < |b| ==> b[i] != b[j]
    ensures forall i, j :: 0 <= i < j < |a| ==> a[i] != a[j]
  {
    forall i, j | 0 <= i < j < |a| ensures a[i] != a[j] {
      if a[i] == a[j] {
        assert a == a[..i] + [a[i]] + a[i + 1..j] + [a[j]] + a[j + 1..];
        assert multiset(a)[a[i]] >= 2;
        OnceEach(b, a[i]);
      }
    }
  }

  lemma {:induction false} OnceEach<K(!new)>(b: seq<K>, k: K)
    requires forall i, j :: 0 <= i < j < |b| ==> b[i] != b[j]
    ensures multiset(b)[k] <= 1
  {
    if b != [] {
      var n := |b| - 1;
      OnceEach(b[..n], k);
      assert b == b[..n] + [b[n]];
      if b[n] == k {
        assert k !in b[..n];
        assert k !in multiset(b[..n]);
      }
    }
  }
}
