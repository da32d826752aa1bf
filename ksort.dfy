/**
 * `ksort` on arrays with string keys: the entries rearranged so that the
 * keys ascend in byte order.
 */
module KeySort {
  import opened Php
  import Str

  predicate SortedByKey<V>(d: Dict<string, V>)
  {
    forall i, j :: 0 <= i < j < |d| ==> Str.LessEq(d[i].0, d[j].0)
  }

  /** Every key of `d` is at least `k`. */
  predicate AllAbove<V>(k: string, d: Dict<string, V>)
  {
    forall i :: 0 <= i < |d| ==> Str.LessEq(k, d[i].0)
  }

  /** Inserting one entry in front of the first key not below it. */
  function InsertByKey<V>(e: (string, V), d: Dict<string, V>): (r: Dict<string, V>)
    ensures multiset(r) == multiset(d) + multiset{e}
    ensures forall k :: k in Keys(r) <==> k == e.0 || k in Keys(d)
  {
    if d == [] then [e]
    else if Str.LessEq(e.0, d[0].0) then
      assert d == [d[0]] + d[1..];
      assert Keys([e] + d) == [e.0] + Keys(d);
      [e] + d
    else
      var tail := InsertByKey(e, d[1..]);
      assert d == [d[0]] + d[1..];
      assert Keys([d[0]] + tail) == [d[0].0] + Keys(tail);
      assert Keys(d) == [d[0].0] + Keys(d[1..]);
      [d[0]] + tail
  }

  /** Every entry after the first of a sorted array is above the first. */
  lemma SortedTail<V>(d: Dict<string, V>)
    requires SortedByKey(d) && d != []
    ensures SortedByKey(d[1..]) && AllAbove(d[0].0, d[1..])
  {
    forall i | 0 <= i < |d[1..]| ensures Str.LessEq(d[0].0, d[1..][i].0) {
      assert d[1..][i] == d[i + 1];
    }
  }

  /** Inserting into a sorted array keeps it sorted, and keeps every lower
    * bound of both the array and the entry. */
  lemma {:induction false} InsertByKeySorted<V>(e: (string, V), d: Dict<string, V>)
    ensures forall k :: AllAbove(k, d) && Str.LessEq(k, e.0) ==> AllAbove(k, InsertByKey(e, d))
    ensures SortedByKey(d) ==> SortedByKey(InsertByKey(e, d))
  {
    var r := InsertByKey(e, d);
    if d == [] {
    } else if Str.LessEq(e.0, d[0].0) {
      forall i | 1 <= i < |d| && SortedByKey(d) ensures Str.LessEq(e.0, d[i].0) {
        Str.LessEqTrans(e.0, d[0].0, d[i].0);
      }
      forall k | AllAbove(k, d) && Str.LessEq(k, e.0) ensures AllAbove(k, r) {
        assert forall i :: 1 <= i < |r| ==> r[i] == d[i - 1];
      }
    } else {
      var tail := InsertByKey(e, d[1..]);
      InsertByKeySorted(e, d[1..]);
      forall k | AllAbove(k, d) && Str.LessEq(k, e.0) ensures AllAbove(k, r) {
        assert AllAbove(k, d[1..]) by {
          forall i | 0 <= i < |d[1..]| ensures Str.LessEq(k, d[1..][i].0) {
            assert d[1..][i] == d[i + 1];
          }
        }
      }
      if SortedByKey(d) {
        SortedTail(d);
        Str.LessEqTotal(e.0, d[0].0);
        assert AllAbove(d[0].0, tail);
      }
    }
  }

  /** `ksort($d)`, as an insertion sort. */
  function SortByKey<V>(d: Dict<string, V>): (r: Dict<string, V>)
    ensures SortedByKey(r)
    ensures multiset(r) == multiset(d)
    ensures forall k :: k in Keys(r) <==> k in Keys(d)
  {
    if d == [] then []
    else
      assert d == [d[0]] + d[1..];
      assert Keys(d) == [d[0].0] + Keys(d[1..]);
      InsertByKeySorted(d[0], SortByKey(d[1..]));
      InsertByKey(d[0], SortByKey(d[1..]))
  }

  /** With distinct keys, an entry is in the array exactly when its key maps
    * to its value. */
  lemma {:induction false} GetIn<V>(d: Dict<string, V>, k: string, v: V)
    requires UniqueKeys(d)
    ensures Get(d, k) == Some(v) <==> (k, v) in d
  {
    if d != [] {
      GetIn(d[1..], k, v);
    }
  }

  /** Sorting by key keeps the keys distinct. */
  lemma SortByKeyUnique<V>(d: Dict<string, V>)
    requires UniqueKeys(d)
    ensures UniqueKeys(SortByKey(d))
  {
    SameEntriesDistinct(d, SortByKey(d));
    DistinctUnique(SortByKey(d));
  }

  /** An array holding the same entries as one with distinct keys has
    * pairwise distinct keys. */
  lemma SameEntriesDistinct<V>(d: Dict<string, V>, r: Dict<string, V>)
    requires UniqueKeys(d) && multiset(r) == multiset(d)
    ensures forall i, j :: 0 <= i < j < |r| ==> r[i].0 != r[j].0
  {
    forall i, j | 0 <= i < j < |r| ensures r[i].0 != r[j].0 {
      if r[i].0 == r[j].0 {
        assert r[i] in multiset(d) && r[j] in multiset(d);
        SameKeySameEntry(d, r[i], r[j]);
        TwiceCounted(r, i, j);
        UniqueCount(d, r[i]);
      }
    }
  }

  /** With distinct keys, two entries of the array with the same key are the
    * same entry. */
  lemma SameKeySameEntry<V>(d: Dict<string, V>, a: (string, V), b: (string, V))
    requires UniqueKeys(d) && a in multiset(d) && b in multiset(d) && a.0 == b.0
    ensures a == b
  {
    GetIn(d, a.0, a.1);
    GetIn(d, b.0, b.1);
  }

  /** A value at two positions is counted at least twice. */
  lemma TwiceCounted<T>(r: seq<T>, i: nat, j: nat)
    requires i < j < |r| && r[i] == r[j]
    ensures multiset(r)[r[i]] >= 2
  {
    assert r == r[..i] + [r[i]] + r[i + 1..];
    assert multiset(r) == multiset(r[..i]) + multiset{r[i]} + multiset(r[i + 1..]);
    assert r[i + 1..][j - i - 1] == r[j];
  }

  /** With distinct keys, no entry occurs twice. */
  lemma {:induction false} UniqueCount<V>(d: Dict<string, V>, e: (string, V))
    requires UniqueKeys(d)
    ensures multiset(d)[e] <= 1
  {
    if d != [] {
      UniqueCount(d[1..], e);
      assert d == [d[0]] + d[1..];
      if d[0] == e && e in d[1..] {
        var i :| 0 <= i < |d[1..]| && d[1..][i] == e;
        KeysAt(d[1..], i);
      }
    }
  }

  /** Pairwise distinct keys are unique keys. */
  lemma {:induction false} DistinctUnique<V>(d: Dict<string, V>)
    requires forall i, j :: 0 <= i < j < |d| ==> d[i].0 != d[j].0
    ensures UniqueKeys(d)
  {
    if d != [] {
      DistinctUnique(d[1..]);
      if d[0].0 in Keys(d[1..]) {
        var i :| 0 <= i < |Keys(d[1..])| && Keys(d[1..])[i] == d[0].0;
        KeysAt(d[1..], i);
      }
    }
  }

  /** Sorting by key changes no key's value. */
  lemma SortByKeyGet<V>(d: Dict<string, V>, k: string)
    requires UniqueKeys(d)
    ensures Get(SortByKey(d), k) == Get(d, k)
  {
    var r := SortByKey(d);
    SortByKeyUnique(d);
    SameEntriesGet(d, r, k);
  }

  /** Two arrays with distinct keys and the same entries agree on every
    * key. */
  lemma SameEntriesGet<V>(a: Dict<string, V>, b: Dict<string, V>, k: string)
    requires UniqueKeys(a) && UniqueKeys(b) && multiset(a) == multiset(b)
    ensures Get(a, k) == Get(b, k)
  {
    var g := Get(a, k);
    if g.Some? {
      GetIn(a, k, g.value);
      assert (k, g.value) in multiset(b);
      GetIn(b, k, g.value);
    } else if Get(b, k).Some? {
      var h := Get(b, k).value;
      GetIn(b, k, h);
      assert (k, h) in multiset(a);
      GetIn(a, k, h);
    }
  }
}
