/**
 * PHP values as the admin widgets see them: scalars, ordered arrays
 * (insertion-ordered dictionaries with integer or string keys) and opaque
 * objects, together with the array primitives the widgets rely on.
 */
module Php {

  datatype Option<T> = None | Some(value: T)

  /** The exception classes the modelled code throws. */
  datatype Exception =
    | InvalidArgument
    | UnexpectedValue
    | OutOfBounds
    | Runtime
    | Generic
    | TypeError

  datatype Result<T> = Ok(value: T) | Err(error: Exception)

  datatype Key = IntKey(n: int) | StrKey(s: string)

  /** A PHP value. `Translation(source)` is a TranslationString object built
    * from `source`; `Object` is any other object. */
  datatype Val =
    | Null
    | Bool(b: bool)
    | Int(n: int)
    | Str(s: string)
    | Arr(entries: seq<(Key, Val)>)
    | Translation(source: Val)
    | Object(cls: string)

  /** An insertion-ordered dictionary, the shape of every PHP array. */
  type Dict<K, V> = seq<(K, V)>

  function Keys<K, V>(d: Dict<K, V>): (ks: seq<K>)
    ensures |ks| == |d|
  {
    if d == [] then [] else [d[0].0] + Keys(d[1..])
  }

  function Values<K, V>(d: Dict<K, V>): (vs: seq<V>)
    ensures |vs| == |d|
  {
    if d == [] then [] else [d[0].1] + Values(d[1..])
  }

  lemma {:induction false} KeysAt<K, V>(d: Dict<K, V>, i: nat)
    requires i < |d|
    ensures Keys(d)[i] == d[i].0 && Values(d)[i] == d[i].1
  {
    if i > 0 { KeysAt(d[1..], i - 1); }
  }

  lemma {:induction false} KeysConcat<K, V>(a: Dict<K, V>, b: Dict<K, V>)
    ensures Keys(a + b) == Keys(a) + Keys(b) && Values(a + b) == Values(a) + Values(b)
  {
    if a == [] {
      assert a + b == b;
    } else {
      assert (a + b)[1..] == a[1..] + b;
      KeysConcat(a[1..], b);
    }
  }

  /** PHP arrays never hold the same key twice. */
  predicate UniqueKeys<K(==), V>(d: Dict<K, V>)
  {
    d == [] || (d[0].0 !in Keys(d[1..]) && UniqueKeys(d[1..]))
  }

  /** `$d[$k]` when `array_key_exists($k, $d)`. */
  function Get<K(==), V>(d: Dict<K, V>, k: K): (r: Option<V>)
    ensures r.Some? <==> k in Keys(d)
  {
    if d == [] then None
    else if d[0].0 == k then Some(d[0].1)
    else Get(d[1..], k)
  }

  lemma {:induction false} GetAt<K, V>(d: Dict<K, V>, i: nat)
    requires UniqueKeys(d) && i < |d|
    ensures Get(d, d[i].0) == Some(d[i].1)
  {
    if i > 0 {
      KeysAt(d[1..], i - 1);
      GetAt(d[1..], i - 1);
    }
  }

  lemma {:induction false} UniqueAt<K, V>(d: Dict<K, V>, i: nat, j: nat)
    requires UniqueKeys(d) && i < j < |d|
    ensures d[i].0 != d[j].0
  {
    if i == 0 {
      KeysAt(d[1..], j - 1);
    } else {
      UniqueAt(d[1..], i - 1, j - 1);
    }
  }

  lemma {:induction false} KeysPrefix<K, V>(d: Dict<K, V>, n: nat)
    requires n <= |d|
    ensures Keys(d[..n]) == Keys(d)[..n]
  {
    KeysConcat(d[..n], d[n..]);
    assert d[..n] + d[n..] == d;
  }

  /** `$d[$k] = $v`: an existing key keeps its position, a new key is appended. */
  function Put<K(==,!new), V>(d: Dict<K, V>, k: K, v: V): (r: Dict<K, V>)
    ensures Get(r, k) == Some(v)
    ensures forall j :: j != k ==> Get(r, j) == Get(d, j)
  {
    if d == [] then [(k, v)]
    else if d[0].0 == k then [(k, v)] + d[1..]
    else [d[0]] + Put(d[1..], k, v)
  }

  /** Where `Put` places the key, and that it keeps keys unique. */
  lemma {:induction false} PutKeys<K(!new), V>(d: Dict<K, V>, k: K, v: V)
    ensures Keys(Put(d, k, v)) == if k in Keys(d) then Keys(d) else Keys(d) + [k]
    ensures UniqueKeys(d) ==> UniqueKeys(Put(d, k, v))
  {
    if d != [] && d[0].0 != k {
      PutKeys(d[1..], k, v);
    }
  }

  /** Writing a key the dictionary does not hold appends it. */
  lemma {:induction false} PutNew<K(!new), V>(d: Dict<K, V>, k: K, v: V)
    requires k !in Keys(d)
    ensures Put(d, k, v) == d + [(k, v)]
  {
    if d != [] {
      PutNew(d[1..], k, v);
      assert d == [d[0]] + d[1..];
    }
  }

  lemma {:induction false} UniqueAppend<K, V>(d: Dict<K, V>, e: (K, V))
    requires UniqueKeys(d) && e.0 !in Keys(d)
    ensures UniqueKeys(d + [e])
  {
    if d != [] {
      assert (d + [e])[1..] == d[1..] + [e];
      KeysConcat(d[1..], [e]);
      UniqueAppend(d[1..], e);
    }
  }

  /** In an array, the key at position `i` occurs nowhere before it. */
  lemma NewKeyAt<K, V>(d: Dict<K, V>, i: nat)
    requires UniqueKeys(d) && i < |d|
    ensures d[i].0 !in Keys(d[..i])
  {
    KeysPrefix(d, i);
    if d[i].0 in Keys(d)[..i] {
      var j :| 0 <= j < i && Keys(d)[..i][j] == d[i].0;
      KeysAt(d, j);
      UniqueAt(d, j, i);
    }
  }

  /** `unset($d[$k])`. */
  function Remove<K(==,!new), V>(d: Dict<K, V>, k: K): (r: Dict<K, V>)
    ensures Get(r, k) == None
    ensures forall j :: j != k ==> Get(r, j) == Get(d, j)
  {
    if d == [] then []
    else if d[0].0 == k then Remove(d[1..], k)
    else [d[0]] + Remove(d[1..], k)
  }

  lemma {:induction false} RemoveKeys<K(!new), V>(d: Dict<K, V>, k: K)
    ensures forall j :: j in Keys(Remove(d, k)) <==> j in Keys(d) && j != k
    ensures UniqueKeys(d) ==> UniqueKeys(Remove(d, k))
  {
    if d != [] {
      RemoveKeys(d[1..], k);
    }
  }

  /** `array_replace($a, $b)`, which is also `array_merge($a, $b)` when
    * no key is an integer: `$b` wins on every key it holds. */
  function Replace<K(==,!new), V>(a: Dict<K, V>, b: Dict<K, V>): (r: Dict<K, V>)
    decreases |b|
  {
    if b == [] then a
    else Replace(Put(a, b[0].0, b[0].1), b[1..])
  }

  lemma {:induction false} ReplaceGet<K(!new), V>(a: Dict<K, V>, b: Dict<K, V>, k: K)
    requires UniqueKeys(b)
    ensures Get(Replace(a, b), k) == if k in Keys(b) then Get(b, k) else Get(a, k)
    decreases |b|
  {
    if b != [] {
      ReplaceGet(Put(a, b[0].0, b[0].1), b[1..], k);
    }
  }

  /** The keys of `array_replace`: those of both arrays, the first array's
    * keys first and in their order, without duplicates. */
  lemma ReplaceKeys<K(!new), V>(a: Dict<K, V>, b: Dict<K, V>)
    ensures forall k :: k in Keys(Replace(a, b)) <==> k in Keys(a) || k in Keys(b)
    ensures UniqueKeys(a) ==> UniqueKeys(Replace(a, b))
    ensures |a| <= |Replace(a, b)| && Keys(Replace(a, b))[..|a|] == Keys(a)
  {
    ReplaceKeysIn(a, b);
    if UniqueKeys(a) {
      ReplaceUnique(a, b);
    }
    ReplaceKeysPrefix(a, b);
  }

  lemma {:induction false} ReplaceKeysIn<K(!new), V>(a: Dict<K, V>, b: Dict<K, V>)
    ensures forall k :: k in Keys(Replace(a, b)) <==> k in Keys(a) || k in Keys(b)
    decreases |b|
  {
    if b != [] {
      var a' := Put(a, b[0].0, b[0].1);
      assert Replace(a, b) == Replace(a', b[1..]);
      PutKeys(a, b[0].0, b[0].1);
      ReplaceKeysIn(a', b[1..]);
      assert Keys(b) == [b[0].0] + Keys(b[1..]);
    }
  }

  lemma {:induction false} ReplaceUnique<K(!new), V>(a: Dict<K, V>, b: Dict<K, V>)
    requires UniqueKeys(a)
    ensures UniqueKeys(Replace(a, b))
    decreases |b|
  {
    if b != [] {
      var a' := Put(a, b[0].0, b[0].1);
      assert Replace(a, b) == Replace(a', b[1..]);
      PutKeys(a, b[0].0, b[0].1);
      ReplaceUnique(a', b[1..]);
    }
  }

  lemma {:induction false} ReplaceKeysPrefix<K(!new), V>(a: Dict<K, V>, b: Dict<K, V>)
    ensures |a| <= |Replace(a, b)| && Keys(Replace(a, b))[..|a|] == Keys(a)
    decreases |b|
  {
    if b != [] {
      var a' := Put(a, b[0].0, b[0].1);
      assert Replace(a, b) == Replace(a', b[1..]);
      PutKeys(a, b[0].0, b[0].1);
      ReplaceKeysPrefix(a', b[1..]);
      assert Keys(a')[..|a|] == Keys(a);
      assert Keys(Replace(a', b[1..]))[..|a|] == Keys(a')[..|a|];
    }
  }

  /** Keeps, in order, the entries whose key `keep` accepts. */
  function Restrict<K(==,!new), V>(d: Dict<K, V>, keep: K -> bool): (r: Dict<K, V>)
    ensures forall k :: Get(r, k) == if keep(k) then Get(d, k) else None
  {
    if d == [] then []
    else if keep(d[0].0) then [d[0]] + Restrict(d[1..], keep)
    else Restrict(d[1..], keep)
  }

  /** The values stored under integer keys, in order: the list part of an array. */
  function ListPart<V>(d: Dict<Key, V>): (vs: seq<V>)
    ensures |vs| <= |d|
  {
    if d == [] then []
    else if d[0].0.IntKey? then [d[0].1] + ListPart(d[1..])
    else ListPart(d[1..])
  }

  /** One step of `array_merge`: an integer-keyed entry is appended under the
    * next list index, a string-keyed entry is written as by `Put`. */
  function MergeStep<V>(acc: Dict<Key, V>, e: (Key, V)): Dict<Key, V>
  {
    if e.0.IntKey? then acc + [(IntKey(|ListPart(acc)|), e.1)]
    else Put(acc, e.0, e.1)
  }

  function MergeAll<V>(acc: Dict<Key, V>, es: Dict<Key, V>): Dict<Key, V>
    decreases |es|
  {
    if es == [] then acc else MergeAll(MergeStep(acc, es[0]), es[1..])
  }

  /** `array_merge($a, $b)`: integer keys are renumbered from 0 in order,
    * string keys behave as in `array_replace`. */
  function Merge<V>(a: Dict<Key, V>, b: Dict<Key, V>): Dict<Key, V>
  {
    MergeAll([], a + b)
  }

  lemma {:induction false} ListPartAppend<V>(d: Dict<Key, V>, e: (Key, V))
    ensures ListPart(d + [e]) == ListPart(d) + (if e.0.IntKey? then [e.1] else [])
  {
    if d != [] {
      assert (d + [e])[1..] == d[1..] + [e];
      ListPartAppend(d[1..], e);
    } else {
      assert ListPart([e]) == (if e.0.IntKey? then [e.1] else []) + ListPart([e][1..]);
    }
  }

  lemma {:induction false} ListPartPut<V>(d: Dict<Key, V>, k: string, v: V)
    ensures ListPart(Put(d, StrKey(k), v)) == ListPart(d)
  {
    if d != [] && d[0].0 != StrKey(k) {
      ListPartPut(d[1..], k, v);
    }
  }

  lemma {:induction false} MergeAllList<V>(acc: Dict<Key, V>, es: Dict<Key, V>)
    ensures ListPart(MergeAll(acc, es)) == ListPart(acc) + ListPart(es)
    decreases |es|
  {
    if es != [] {
      var e := es[0];
      if e.0.IntKey? {
        ListPartAppend(acc, (IntKey(|ListPart(acc)|), e.1));
      } else {
        ListPartPut(acc, e.0.s, e.1);
      }
      MergeAllList(MergeStep(acc, e), es[1..]);
    }
  }

  /** `array_merge` concatenates the list parts of its operands. */
  lemma MergeList<V>(a: Dict<Key, V>, b: Dict<Key, V>)
    ensures ListPart(Merge(a, b)) == ListPart(a) + ListPart(b)
  {
    MergeAllList([], a + b);
    ListPartConcat(a, b);
  }

  lemma {:induction false} ListPartConcat<V>(a: Dict<Key, V>, b: Dict<Key, V>)
    ensures ListPart(a + b) == ListPart(a) + ListPart(b)
  {
    if a != [] {
      assert (a + b)[1..] == a[1..] + b;
      ListPartConcat(a[1..], b);
    } else {
      assert a + b == b;
    }
  }

  lemma {:induction false} MergeAllConcat<V>(acc: Dict<Key, V>, a: Dict<Key, V>, b: Dict<Key, V>)
    ensures MergeAll(acc, a + b) == MergeAll(MergeAll(acc, a), b)
    decreases |a|
  {
    if a == [] {
      assert a + b == b;
    } else {
      assert (a + b)[1..] == a[1..] + b;
      MergeAllConcat(MergeStep(acc, a[0]), a[1..], b);
    }
  }

  lemma {:induction false} GetAppendOther<K, V>(d: Dict<K, V>, e: (K, V), k: K)
    requires e.0 != k
    ensures Get(d + [e], k) == Get(d, k)
  {
    if d != [] {
      assert (d + [e])[1..] == d[1..] + [e];
      GetAppendOther(d[1..], e, k);
    }
  }

  lemma {:induction false} MergeAllStrKey<V>(acc: Dict<Key, V>, es: Dict<Key, V>, k: string)
    requires UniqueKeys(es)
    ensures Get(MergeAll(acc, es), StrKey(k)) ==
      if StrKey(k) in Keys(es) then Get(es, StrKey(k)) else Get(acc, StrKey(k))
    decreases |es|
  {
    if es != [] {
      var e := es[0];
      MergeAllStrKey(MergeStep(acc, e), es[1..], k);
      if e.0.IntKey? {
        GetAppendOther(acc, (IntKey(|ListPart(acc)|), e.1), StrKey(k));
      }
    }
  }

  /** Every integer key of `d` is below `n`. */
  predicate IntKeysBelow<V>(d: Dict<Key, V>, n: int)
  {
    forall k :: k in Keys(d) && k.IntKey? ==> k.n < n
  }

  lemma {:induction false} MergeAllUnique<V>(acc: Dict<Key, V>, es: Dict<Key, V>)
    requires UniqueKeys(acc) && IntKeysBelow(acc, |ListPart(acc)|)
    ensures UniqueKeys(MergeAll(acc, es))
    decreases |es|
  {
    if es != [] {
      var e := es[0];
      if e.0.IntKey? {
        var appended := (IntKey(|ListPart(acc)|), e.1);
        UniqueAppend(acc, appended);
        ListPartAppend(acc, appended);
        KeysConcat(acc, [appended]);
      } else {
        PutKeys(acc, e.0, e.1);
        ListPartPut(acc, e.0.s, e.1);
      }
      MergeAllUnique(MergeStep(acc, e), es[1..]);
    }
  }

  /** `array_merge` builds an array: no key occurs twice. */
  lemma MergeUnique<V>(a: Dict<Key, V>, b: Dict<Key, V>)
    ensures UniqueKeys(Merge(a, b))
  {
    MergeAllUnique([], a + b);
  }

  /** On a string key, `array_merge` keeps the value of the last operand
    * that holds the key. */
  lemma MergeStrKey<V>(a: Dict<Key, V>, b: Dict<Key, V>, k: string)
    requires UniqueKeys(a) && UniqueKeys(b)
    ensures Get(Merge(a, b), StrKey(k)) ==
      if StrKey(k) in Keys(b) then Get(b, StrKey(k)) else Get(a, StrKey(k))
  {
    MergeAllConcat([], a, b);
    MergeAllStrKey([], a, k);
    MergeAllStrKey(MergeAll([], a), b, k);
  }

  /** `array_replace_recursive` from entry `i` of array `b` on: where both
    * sides hold an array the arrays are replaced into each other, otherwise
    * `b`'s value replaces `a`'s. */
  function ReplaceRecursiveFrom(a: Dict<Key, Val>, b: Val, i: nat): Dict<Key, Val>
    requires b.Arr? && i <= |b.entries|
    decreases b, |b.entries| - i
  {
    if i == |b.entries| then a
    else
      var (k, v) := b.entries[i];
      var cur := Get(a, k);
      var replaced := if cur.Some? && cur.value.Arr? && v.Arr? then Arr(ReplaceRecursiveFrom(cur.value.entries, v, 0)) else v;
      ReplaceRecursiveFrom(Put(a, k, replaced), b, i + 1)
  }

  /** `array_replace_recursive($a, $b)`. */
  function ReplaceRecursive(a: Dict<Key, Val>, b: Dict<Key, Val>): Dict<Key, Val>
  {
    ReplaceRecursiveFrom(a, Arr(b), 0)
  }

  /** The value `array_replace_recursive` leaves under a key `b` holds. */
  function ReplacedValue(a: Dict<Key, Val>, k: Key, v: Val): Val
  {
    var cur := Get(a, k);
    if cur.Some? && cur.value.Arr? && v.Arr? then Arr(ReplaceRecursive(cur.value.entries, v.entries)) else v
  }

  /** One entry of `array_replace_recursive`: entry `i` of `b` is replaced
    * into `a`, and the rest follows. */
  lemma ReplaceRecursiveStep(a: Dict<Key, Val>, b: Val, i: nat) returns (a': Dict<Key, Val>)
    requires b.Arr? && i < |b.entries|
    ensures a' == Put(a, b.entries[i].0, ReplacedValue(a, b.entries[i].0, b.entries[i].1))
    ensures ReplaceRecursiveFrom(a, b, i) == ReplaceRecursiveFrom(a', b, i + 1)
  {
    a' := Put(a, b.entries[i].0, ReplacedValue(a, b.entries[i].0, b.entries[i].1));
  }

  lemma {:induction false} ReplaceRecursiveFromGet(a: Dict<Key, Val>, b: Val, i: nat, k: Key)
    requires b.Arr? && i <= |b.entries| && UniqueKeys(b.entries)
    ensures Get(ReplaceRecursiveFrom(a, b, i), k) ==
      if k in Keys(b.entries[i..]) then Some(ReplacedValue(a, k, Get(b.entries[i..], k).value)) else Get(a, k)
    decreases |b.entries| - i
  {
    if i < |b.entries| {
      var es := b.entries;
      var a' := ReplaceRecursiveStep(a, b, i);
      ReplaceRecursiveFromGet(a', b, i + 1, k);
      SuffixStep(es, i, k);
      if k == es[i].0 {
        UniqueAfter(es, i);
      } else {
        assert Get(a', k) == Get(a, k);
      }
    }
  }

  lemma {:induction false} ReplaceRecursiveFromUnique(a: Dict<Key, Val>, b: Val, i: nat)
    requires b.Arr? && i <= |b.entries| && UniqueKeys(a)
    ensures UniqueKeys(ReplaceRecursiveFrom(a, b, i))
    decreases |b.entries| - i
  {
    if i < |b.entries| {
      var k0 := b.entries[i].0;
      var v := ReplacedValue(a, k0, b.entries[i].1);
      PutKeys(a, k0, v);
      ReplaceRecursiveFromUnique(Put(a, k0, v), b, i + 1);
    }
  }

  /** `array_replace_recursive` builds an array from an array. */
  lemma ReplaceRecursiveUnique(a: Dict<Key, Val>, b: Dict<Key, Val>)
    requires UniqueKeys(a)
    ensures UniqueKeys(ReplaceRecursive(a, b))
  {
    ReplaceRecursiveFromUnique(a, Arr(b), 0);
  }

  /** Looking a key up in the suffix from `i`: entry `i` first, then the rest. */
  lemma SuffixStep<K, V>(d: Dict<K, V>, i: nat, k: K)
    requires i < |d|
    ensures k in Keys(d[i..]) <==> k == d[i].0 || k in Keys(d[i + 1..])
    ensures Get(d[i..], k) == if d[i].0 == k then Some(d[i].1) else Get(d[i + 1..], k)
  {
    assert d[i..][1..] == d[i + 1..];
  }

  /** In an array, the key at position `i` occurs nowhere after it. */
  lemma {:induction false} UniqueAfter<K, V>(d: Dict<K, V>, i: nat)
    requires UniqueKeys(d) && i < |d|
    ensures d[i].0 !in Keys(d[i + 1..])
  {
    if i == 0 {
      assert d[1..] == d[i + 1..];
    } else {
      assert d[1..][i - 1] == d[i];
      assert d[1..][i..] == d[i + 1..];
      UniqueAfter(d[1..], i - 1);
    }
  }

  /** `array_replace_recursive` keeps `a` where `b` is silent, and where `b`
    * speaks it takes `b`'s value, merged recursively into an array `a`
    * holds. */
  lemma ReplaceRecursiveGet(a: Dict<Key, Val>, b: Dict<Key, Val>, k: Key)
    requires UniqueKeys(b)
    ensures Get(ReplaceRecursive(a, b), k) ==
      if k in Keys(b) then Some(ReplacedValue(a, k, Get(b, k).value)) else Get(a, k)
  {
    assert b[0..] == b;
    ReplaceRecursiveFromGet(a, Arr(b), 0, k);
  }

  /** `array_filter` dropping the null values, in order. */
  function DropNulls(d: Dict<Key, Val>): (r: Dict<Key, Val>)
    ensures forall e :: e in r <==> e in d && e.1 != Null
  {
    if d == [] then []
    else if d[0].1 == Null then DropNulls(d[1..])
    else [d[0]] + DropNulls(d[1..])
  }

  /** Dropping the null values of an array removes exactly the keys that
    * hold null. */
  lemma {:induction false} DropNullsGet(d: Dict<Key, Val>, k: Key)
    requires UniqueKeys(d)
    ensures Get(DropNulls(d), k) == if Get(d, k) == Some(Null) then None else Get(d, k)
  {
    if d != [] {
      DropNullsGet(d[1..], k);
      if d[0].0 == k {
        DropNullsMissing(d[1..], k);
      }
    }
  }

  lemma {:induction false} DropNullsMissing(d: Dict<Key, Val>, k: Key)
    requires k !in Keys(d)
    ensures Get(DropNulls(d), k) == None
  {
    if d != [] {
      DropNullsMissing(d[1..], k);
    }
  }

  /** PHP's conversion to boolean. Objects are always true. */
  predicate Truthy(v: Val)
  {
    match v
    case Null => false
    case Bool(b) => b
    case Int(n) => n != 0
    case Str(s) => s != "" && s != "0"
    case Arr(es) => es != []
    case Translation(_) => true
    case Object(_) => true
  }

  /** The value stored under string key `k`, or null. */
  function Lookup(es: seq<(Key, Val)>, k: string): Val
  {
    if es == [] then Null
    else if es[0].0 == StrKey(k) then es[0].1
    else Lookup(es[1..], k)
  }

  lemma {:induction false} LookupGet(es: seq<(Key, Val)>, k: string)
    ensures Lookup(es, k) == match Get(es, StrKey(k)) case Some(x) => x case None => Null
  {
    if es != [] && es[0].0 != StrKey(k) {
      LookupGet(es[1..], k);
    }
  }

  /** `$v[$k]` read with the null default: absent keys and non-arrays give null. */
  function At(v: Val, k: string): Val
  {
    if v.Arr? then Lookup(v.entries, k) else Null
  }

  /** `isset($v[$k])`. */
  predicate IsSet(v: Val, k: string)
  {
    At(v, k) != Null
  }

  /** An array used as a record whose key order plays no part: its
    * fields by string key. */
  type Fields = map<string, Val>

  /** `$a[$k]` with the null default. */
  function Field(a: Fields, k: string): Val
  {
    if k in a then a[k] else Null
  }

  /** `isset($a[$k])`. */
  predicate Has(a: Fields, k: string)
  {
    Field(a, k) != Null
  }

  lemma {:induction false} LookupPut(es: seq<(Key, Val)>, k: string, x: Val, j: string)
    ensures Lookup(Put(es, StrKey(k), x), j) == if j == k then x else Lookup(es, j)
  {
    if es != [] && es[0].0 != StrKey(k) {
      LookupPut(es[1..], k, x, j);
    }
  }

  lemma {:induction false} LookupRemove(es: seq<(Key, Val)>, k: string, j: string)
    ensures Lookup(Remove(es, StrKey(k)), j) == if j == k then Null else Lookup(es, j)
  {
    if es != [] {
      LookupRemove(es[1..], k, j);
    }
  }

  /** `$v[$k] = $x` on an array value. */
  function With(v: Val, k: string, x: Val): (r: Val)
    requires v.Arr?
    ensures r.Arr? && At(r, k) == x
    ensures forall j :: j != k ==> At(r, j) == At(v, j)
  {
    forall j ensures Lookup(Put(v.entries, StrKey(k), x), j) == if j == k then x else Lookup(v.entries, j) {
      LookupPut(v.entries, k, x, j);
    }
    Arr(Put(v.entries, StrKey(k), x))
  }

  /** `unset($v[$k])` on an array value. */
  function Without(v: Val, k: string): (r: Val)
    requires v.Arr?
    ensures r.Arr? && At(r, k) == Null && !IsSet(r, k)
    ensures forall j :: j != k ==> At(r, j) == At(v, j)
  {
    forall j ensures Lookup(Remove(v.entries, StrKey(k)), j) == if j == k then Null else Lookup(v.entries, j) {
      LookupRemove(v.entries, k, j);
    }
    Arr(Remove(v.entries, StrKey(k)))
  }

  /** An array key as the value PHP hands out for it. */
  function KeyVal(k: Key): Val
  {
    match k
    case IntKey(n) => Int(n)
    case StrKey(s) => Str(s)
  }

  /** `is_array`. */
  predicate IsArray(v: Val) { v.Arr? }

  /** An array value from string-keyed entries. */
  function Record(fields: seq<(string, Val)>): Val
  {
    Arr(seq(|fields|, i requires 0 <= i < |fields| => (StrKey(fields[i].0), fields[i].1)))
  }

  function Indexed(vs: seq<Val>, from: int): (es: seq<(Key, Val)>)
    ensures ListPart(es) == vs
    decreases |vs|
  {
    if vs == [] then [] else [(IntKey(from), vs[0])] + Indexed(vs[1..], from + 1)
  }

  /** A list value `[v0, v1, ...]`. */
  function List(vs: seq<Val>): (r: Val)
    ensures r.Arr? && ListPart(r.entries) == vs
  {
    Arr(Indexed(vs, 0))
  }

  /** Decimal digits of a natural number. */
  function NatString(n: nat): (s: string)
    ensures s != [] && forall i :: 0 <= i < |s| ==> '0' <= s[i] <= '9'
    decreases n
  {
    var d := [(('0' as int) + n % 10) as char];
    if n < 10 then d else NatString(n / 10) + d
  }

  predicate AllDigits(s: string)
  {
    s != [] && forall i :: 0 <= i < |s| ==> '0' <= s[i] <= '9'
  }

  /** The number a string of decimal digits spells. */
  function DigitsValue(s: string): nat
    requires forall i :: 0 <= i < |s| ==> '0' <= s[i] <= '9'
  {
    if s == [] then 0 else DigitsValue(s[..|s| - 1]) * 10 + (s[|s| - 1] as int - '0' as int)
  }

  /** The integer an integer numeric string stands for in a loose
    * comparison: digits with an optional sign. */
  function IntegerString(s: string): Option<int>
  {
    if AllDigits(s) then Some(DigitsValue(s) as int)
    else if |s| > 1 && s[0] == '-' && AllDigits(s[1..]) then Some(-(DigitsValue(s[1..]) as int))
    else if |s| > 1 && s[0] == '+' && AllDigits(s[1..]) then Some(DigitsValue(s[1..]))
    else None
  }

  lemma {:induction false} NatStringValue(n: nat)
    ensures DigitsValue(NatString(n)) == n
    decreases n
  {
    var d := [(('0' as int) + n % 10) as char];
    if n >= 10 {
      var s := NatString(n / 10);
      NatStringValue(n / 10);
      assert (s + d)[..|s + d| - 1] == s;
    }
  }

  /** A string whose first character is a digit. */
  predicate IsDigitsHead(s: string)
  {
    s != [] && '0' <= s[0] <= '9'
  }

  /** A minus sign before digits reads as the negated number. */
  lemma NegativeString(d: string)
    requires AllDigits(d)
    ensures IntegerString("-" + d) == Some(-(DigitsValue(d) as int))
  {
    var s := "-" + d;
    assert s[0] == '-' && !IsDigitsHead(s);
    assert s[1..] == d;
  }

  /** An integer written out by PHP reads back as the same integer. */
  lemma IntegerStringRoundTrip(n: int)
    ensures IntegerString(ScalarString(Int(n))) == Some(n)
  {
    if n < 0 {
      NatStringValue(-n);
      NegativeString(NatString(-n));
    } else {
      NatStringValue(n);
    }
  }

  /** PHP's conversion to string for the values the model converts. */
  function ScalarString(v: Val): string
  {
    match v
    case Null => ""
    case Bool(b) => if b then "1" else ""
    case Int(n) => if n < 0 then "-" + NatString(-n) else NatString(n)
    case Str(s) => s
    case Arr(_) => "Array"
    case Translation(_) => ""
    case Object(_) => ""
  }

  function KeyString(k: Key): string
  {
    match k
    case IntKey(n) => ScalarString(Int(n))
    case StrKey(s) => s
  }
}
