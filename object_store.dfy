/**
 * An IndexedDB object store: records held in ascending key order, at most
 * one record per key. `getAll` reads the records in that order, `put`
 * inserts or overwrites, `add` refuses an existing key, `delete` removes
 * the record with the key (and is a no-op when there is none).
 *
 * The store is a key-sorted sequence; `ToMap` is its key-to-record view,
 * and a sorted store is determined by that view (`SortedByMap`).
 */
module ObjectStore {
  import opened JsValues

  /**
   * An IndexedDB key. Number keys order before string keys; strings order
   * by their characters. Date, binary and array keys are not modelled.
   */
  datatype Key = NumKey(n: int) | StrKey(s: string)

  /** The key a record value stands for at a key path, if it is a valid key. */
  function ToKey(v: Value): Option<Key> {
    match v
    case Num(n) => Some(NumKey(n))
    case Str(s) => Some(StrKey(s))
    case _ => None
  }

  /** The value a key path property holds for a key. */
  function KeyValue(k: Key): Value {
    match k
    case NumKey(n) => Num(n)
    case StrKey(s) => Str(s)
  }

  /** A key path property holding a key's value names that key. */
  lemma ToKeyOfKeyValue(k: Key)
    ensures ToKey(KeyValue(k)) == Some(k)
  {
    match k
    case NumKey(n) =>
    case StrKey(s) =>
  }

  predicate StrLess(a: string, b: string)
    decreases |a|
  {
    if |a| == 0 then |b| != 0
    else if |b| == 0 then false
    else if a[0] != b[0] then a[0] < b[0]
    else StrLess(a[1..], b[1..])
  }

  predicate KeyLess(a: Key, b: Key) {
    match (a, b)
    case (NumKey(x), NumKey(y)) => x < y
    case (NumKey(_), StrKey(_)) => true
    case (StrKey(_), NumKey(_)) => false
    case (StrKey(x), StrKey(y)) => StrLess(x, y)
  }

  lemma {:induction false} StrLessIrreflexive(a: string)
    ensures !StrLess(a, a)
    decreases |a|
  {
    if |a| != 0 {
      StrLessIrreflexive(a[1..]);
    }
  }

  lemma {:induction false} StrLessTrichotomy(a: string, b: string)
    ensures a == b || StrLess(a, b) || StrLess(b, a)
    ensures !(StrLess(a, b) && StrLess(b, a))
    decreases |a|
  {
    if |a| != 0 && |b| != 0 && a[0] == b[0] {
      StrLessTrichotomy(a[1..], b[1..]);
      assert a == [a[0]] + a[1..] && b == [b[0]] + b[1..];
    }
  }

  lemma {:induction false} StrLessTransitive(a: string, b: string, c: string)
    requires StrLess(a, b) && StrLess(b, c)
    ensures StrLess(a, c)
    decreases |a|
  {
    if |a| != 0 && a[0] == b[0] && b[0] == c[0] {
      StrLessTransitive(a[1..], b[1..], c[1..]);
    }
  }

  /** IndexedDB's key order is a strict total order. */
  lemma KeyLessTotalOrder(a: Key, b: Key, c: Key)
    ensures !KeyLess(a, a)
    ensures a == b || KeyLess(a, b) || KeyLess(b, a)
    ensures !(KeyLess(a, b) && KeyLess(b, a))
    ensures KeyLess(a, b) && KeyLess(b, c) ==> KeyLess(a, c)
  {
    if a.StrKey? {
      StrLessIrreflexive(a.s);
      if b.StrKey? {
        StrLessTrichotomy(a.s, b.s);
        if c.StrKey? && KeyLess(a, b) && KeyLess(b, c) {
          StrLessTransitive(a.s, b.s, c.s);
        }
      }
    }
  }

  datatype Entry<V> = Entry(key: Key, value: V)

  /** The key-to-record view of a store; the first entry for a key wins. */
  function ToMap<V>(s: seq<Entry<V>>): map<Key, V> {
    if |s| == 0 then map[] else ToMap(s[1..])[s[0].key := s[0].value]
  }

  ghost predicate AllAbove<V>(lo: Key, m: map<Key, V>) {
    forall k :: k in m ==> KeyLess(lo, k)
  }

  /** Keys strictly ascend along the store. */
  ghost predicate Sorted<V>(s: seq<Entry<V>>) {
    |s| == 0 || (AllAbove(s[0].key, ToMap(s[1..])) && Sorted(s[1..]))
  }

  /** `getAll()`: the records, in key order. */
  function Values<V>(s: seq<Entry<V>>): (r: seq<V>)
    ensures |r| == |s|
  {
    if |s| == 0 then [] else [s[0].value] + Values(s[1..])
  }

  /** `get(k)` */
  function Get<V>(s: seq<Entry<V>>, k: Key): (r: Option<V>)
    ensures r == if k in ToMap(s) then Some(ToMap(s)[k]) else None
  {
    if |s| == 0 then None
    else if s[0].key == k then Some(s[0].value)
    else Get(s[1..], k)
  }

  /** `put(v)` under key `k`: insert, or overwrite the record with that key. */
  function Put<V>(s: seq<Entry<V>>, k: Key, v: V): (r: seq<Entry<V>>)
    requires Sorted(s)
    ensures Sorted(r)
    ensures ToMap(r) == ToMap(s)[k := v]
  {
    if |s| == 0 then [Entry(k, v)]
    else if s[0].key == k then
      assert ToMap([Entry(k, v)] + s[1..]) == ToMap(s[1..])[k := v] by {
        assert ([Entry(k, v)] + s[1..])[1..] == s[1..];
      }
      [Entry(k, v)] + s[1..]
    else if KeyLess(k, s[0].key) then
      assert AllAbove(k, ToMap(s)) by {
        forall x | x in ToMap(s) ensures KeyLess(k, x) {
          KeyLessTotalOrder(k, s[0].key, x);
        }
      }
      assert ([Entry(k, v)] + s)[1..] == s;
      [Entry(k, v)] + s
    else
      var rest := Put(s[1..], k, v);
      KeyLessTotalOrder(s[0].key, k, k);
      assert ([s[0]] + rest)[1..] == rest;
      [s[0]] + rest
  }

  /** `delete(k)`: remove the record with key `k`; no change when there is none. */
  function Delete<V>(s: seq<Entry<V>>, k: Key): (r: seq<Entry<V>>)
    requires Sorted(s)
    ensures Sorted(r)
    ensures ToMap(r) == ToMap(s) - {k}
  {
    if |s| == 0 then []
    else if s[0].key == k then
      KeyLessTotalOrder(k, k, k);
      s[1..]
    else
      var rest := Delete(s[1..], k);
      assert ([s[0]] + rest)[1..] == rest;
      [s[0]] + rest
  }

  /** The first key of a non-empty sorted store is the least key of its view. */
  lemma {:induction false} HeadIsLeast<V>(s: seq<Entry<V>>)
    requires Sorted(s) && |s| > 0
    ensures s[0].key in ToMap(s) && ToMap(s)[s[0].key] == s[0].value
    ensures forall k :: k in ToMap(s) && k != s[0].key ==> KeyLess(s[0].key, k)
    ensures s[0].key !in ToMap(s[1..]) && ToMap(s[1..]) == ToMap(s) - {s[0].key}
  {
    KeyLessTotalOrder(s[0].key, s[0].key, s[0].key);
  }

  /** A sorted store is determined by its key-to-record view. */
  lemma {:induction false} SortedByMap<V>(a: seq<Entry<V>>, b: seq<Entry<V>>)
    requires Sorted(a) && Sorted(b) && ToMap(a) == ToMap(b)
    ensures a == b
    decreases |a|
  {
    if |a| == 0 {
      if |b| != 0 { HeadIsLeast(b); }
    } else {
      HeadIsLeast(a);
      assert |b| != 0;
      HeadIsLeast(b);
      if a[0].key != b[0].key {
        KeyLessTotalOrder(a[0].key, b[0].key, a[0].key);
      }
      SortedByMap(a[1..], b[1..]);
      assert a == [a[0]] + a[1..] && b == [b[0]] + b[1..];
    }
  }

  /** Every key of the store is a number below `bound`. */
  ghost predicate NumKeysBelow<V>(m: map<Key, V>, bound: int) {
    forall k :: k in m ==> k.NumKey? && k.n < bound
  }

  /**
   * A key above every number key of a store whose keys are all numbers
   * goes at the end: `getAll` then returns the old records followed by the new one.
   */
  lemma {:induction false} PutAboveAppends<V>(s: seq<Entry<V>>, n: int, v: V)
    requires Sorted(s) && NumKeysBelow(ToMap(s), n)
    ensures Put(s, NumKey(n), v) == s + [Entry(NumKey(n), v)]
    ensures Values(Put(s, NumKey(n), v)) == Values(s) + [v]
    decreases |s|
  {
    if |s| != 0 {
      assert s[0].key in ToMap(s);
      PutAboveAppends(s[1..], n, v);
      assert s == [s[0]] + s[1..];
      assert s + [Entry(NumKey(n), v)] == [s[0]] + (s[1..] + [Entry(NumKey(n), v)]);
    }
  }
}
