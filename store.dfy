/**
 * The bounded key/value store the server keeps uploads in, as it uses it:
 * `lru.set(path, bytes)` on a finished upload and `lru.get(url)` on a
 * lookup. The store is a recency list, least recently used first, holding
 * at most `max` entries with distinct keys.
 */
module ObjectStore {
  import opened Common

  datatype Entry = Entry(key: string, value: Bytes)

  function Keys(es: seq<Entry>): set<string>
  {
    set i | 0 <= i < |es| :: es[i].key
  }

  predicate Distinct(es: seq<Entry>)
  {
    forall i, j :: 0 <= i < j < |es| ==> es[i].key != es[j].key
  }

  lemma KeysCons(e: Entry, es: seq<Entry>)
    ensures Keys([e] + es) == {e.key} + Keys(es)
  {
    assert ([e] + es)[0].key == e.key;
    forall x | x in Keys(es) ensures x in Keys([e] + es) {
      var i :| 0 <= i < |es| && es[i].key == x;
      assert ([e] + es)[i + 1].key == x;
    }
    forall x | x in Keys([e] + es) && x != e.key ensures x in Keys(es) {
      var i :| 0 <= i < |[e] + es| && ([e] + es)[i].key == x;
      assert es[i - 1].key == x;
    }
  }

  lemma KeysSnoc(es: seq<Entry>, e: Entry)
    ensures Keys(es + [e]) == Keys(es) + {e.key}
  {
    assert (es + [e])[|es|].key == e.key;
    forall x | x in Keys(es) ensures x in Keys(es + [e]) {
      var i :| 0 <= i < |es| && es[i].key == x;
      assert (es + [e])[i].key == x;
    }
  }

  /** The value stored under `k`, if any. */
  function Lookup(es: seq<Entry>, k: string): (r: Option<Bytes>)
    ensures r.Some? <==> k in Keys(es)
    ensures r.Some? ==> Entry(k, r.value) in es
  {
    if es == [] then None
    else
      assert Keys(es) == {es[0].key} + Keys(es[1..]);
      if es[0].key == k then Some(es[0].value)
      else Lookup(es[1..], k)
  }

  /** The list with the entry for `k` taken out, the others in their order. */
  function Without(es: seq<Entry>, k: string): (r: seq<Entry>)
    ensures Keys(r) == Keys(es) - {k}
    ensures forall e :: e in r ==> e in es
  {
    if es == [] then []
    else
      assert Keys(es) == {es[0].key} + Keys(es[1..]);
      if es[0].key == k then Without(es[1..], k)
      else
        var rest := Without(es[1..], k);
        KeysCons(es[0], rest);
        [es[0]] + rest
  }

  /** `lru.set(k, v)`: `k` becomes the most recent entry; the least recent is evicted past `max`. */
  function Put(es: seq<Entry>, k: string, v: Bytes, max: nat): (r: seq<Entry>)
    ensures 1 <= max ==> r != [] && r[|r| - 1] == Entry(k, v)
  {
    var added := Without(es, k) + [Entry(k, v)];
    if |added| > max then added[1..] else added
  }

  /** `lru.get(k)`: a hit marks `k` as the most recently used entry. */
  function Touch(es: seq<Entry>, k: string): (r: seq<Entry>)
    ensures Keys(r) == Keys(es)
    ensures k !in Keys(es) ==> r == es
  {
    match Lookup(es, k)
    case None => es
    case Some(v) =>
      KeysSnoc(Without(es, k), Entry(k, v));
      Without(es, k) + [Entry(k, v)]
  }

  /** A `Put` of `k` evicts the least recently used entry: the store is full and `k` is new. */
  predicate Evicts(es: seq<Entry>, k: string, max: nat)
  {
    es != [] && k !in Keys(es) && |es| >= max
  }

  lemma {:induction false} DistinctTail(es: seq<Entry>)
    requires Distinct(es) && es != []
    ensures Distinct(es[1..]) && es[0].key !in Keys(es[1..])
  {
  }

  lemma {:induction false} WithoutDistinct(es: seq<Entry>, k: string)
    requires Distinct(es)
    ensures Distinct(Without(es, k))
    ensures |Without(es, k)| == if k in Keys(es) then |es| - 1 else |es|
    ensures k !in Keys(es) ==> Without(es, k) == es
  {
    if es != [] {
      DistinctTail(es);
      WithoutDistinct(es[1..], k);
      assert Keys(es) == {es[0].key} + Keys(es[1..]);
      if es[0].key != k {
        var rest := Without(es[1..], k);
        assert es[0].key !in Keys(rest);
        forall i, j | 0 <= i < j < |[es[0]] + rest|
          ensures ([es[0]] + rest)[i].key != ([es[0]] + rest)[j].key
        {
          if i == 0 {
            assert rest[j - 1].key in Keys(rest);
          }
        }
      }
    }
  }

  lemma {:induction false} WithoutLookup(es: seq<Entry>, k: string, k': string)
    ensures Lookup(Without(es, k), k') == if k' == k then None else Lookup(es, k')
  {
    if es != [] {
      WithoutLookup(es[1..], k, k');
    }
  }

  /** Appending a new key leaves every other lookup alone. */
  lemma {:induction false} LookupAppend(es: seq<Entry>, e: Entry, k': string)
    requires e.key !in Keys(es)
    ensures Lookup(es + [e], k') == if k' == e.key then Some(e.value) else Lookup(es, k')
  {
    if es != [] {
      assert (es + [e])[1..] == es[1..] + [e];
      assert Keys(es) == {es[0].key} + Keys(es[1..]);
      LookupAppend(es[1..], e, k');
    }
  }

  /** The entry stored under a key is the one a lookup finds. */
  lemma {:induction false} LookupAt(es: seq<Entry>, p: nat)
    requires Distinct(es) && p < |es|
    ensures Lookup(es, es[p].key) == Some(es[p].value)
  {
    if p > 0 {
      DistinctTail(es);
      LookupAt(es[1..], p - 1);
    }
  }

  /** Removing a stored key takes out exactly its entry and keeps the others in their order. */
  lemma {:induction false} WithoutAt(es: seq<Entry>, p: nat)
    requires Distinct(es) && p < |es|
    ensures Without(es, es[p].key) == es[..p] + es[p + 1..]
  {
    DistinctTail(es);
    if p == 0 {
      WithoutDistinct(es[1..], es[0].key);
    } else {
      WithoutAt(es[1..], p - 1);
      assert es[1..][..p - 1] + es[1..][p..] == es[1..p] + es[p + 1..];
      assert es[..p] == [es[0]] + es[1..p];
    }
  }

  lemma DropOldestLookup(es: seq<Entry>, k': string)
    requires Distinct(es) && es != []
    ensures Lookup(es[1..], k') == if k' == es[0].key then None else Lookup(es, k')
  {
    DistinctTail(es);
  }

  lemma AppendDistinct(es: seq<Entry>, e: Entry)
    requires Distinct(es) && e.key !in Keys(es)
    ensures Distinct(es + [e]) && Keys(es + [e]) == Keys(es) + {e.key}
  {
    forall i | 0 <= i < |es| ensures es[i].key != e.key {
      assert es[i].key in Keys(es);
    }
    KeysSnoc(es, e);
  }

  /** A `set` keeps the bound and the keys distinct, and adds exactly `k`, evicting at most the oldest key. */
  lemma PutShape(es: seq<Entry>, k: string, v: Bytes, max: nat)
    requires Distinct(es) && |es| <= max && 1 <= max
    ensures Distinct(Put(es, k, v, max)) && |Put(es, k, v, max)| <= max
    ensures Lookup(Put(es, k, v, max), k) == Some(v)
    ensures Keys(Put(es, k, v, max)) == Keys(es) + {k} - (if Evicts(es, k, max) then {es[0].key} else {})
    ensures |Put(es, k, v, max)| == if k in Keys(es) || Evicts(es, k, max) then |es| else |es| + 1
  {
    var w := Without(es, k);
    var added := w + [Entry(k, v)];
    WithoutDistinct(es, k);
    AppendDistinct(w, Entry(k, v));
    LookupAppend(w, Entry(k, v), k);
    if |added| > max {
      assert w == es;
      DistinctTail(added);
      DropOldestLookup(added, k);
      assert Keys(added) == {added[0].key} + Keys(added[1..]);
    }
  }

  /**
   * A `set` of a stored key moves it to the most recent end with the new
   * value, and the other entries keep their order.
   */
  lemma PutMovesToEnd(es: seq<Entry>, p: nat, v: Bytes, max: nat)
    requires Distinct(es) && |es| <= max && p < |es|
    ensures Put(es, es[p].key, v, max) == es[..p] + es[p + 1..] + [Entry(es[p].key, v)]
  {
    WithoutAt(es, p);
  }

  /**
   * A `set` of a new key appends it as the most recent entry; when the store
   * is full, the least recently used entry, the first, is evicted; the
   * other entries keep their order.
   */
  lemma PutAppendsNew(es: seq<Entry>, k: string, v: Bytes, max: nat)
    requires Distinct(es) && |es| <= max && 1 <= max && k !in Keys(es)
    ensures Put(es, k, v, max) == (if |es| < max then es else es[1..]) + [Entry(k, v)]
  {
    WithoutDistinct(es, k);
    if |es| == max {
      assert (es + [Entry(k, v)])[1..] == es[1..] + [Entry(k, v)];
    }
  }

  /** A `get` hit moves the entry, value unchanged, to the most recent end; the others keep their order. */
  lemma TouchMovesToEnd(es: seq<Entry>, p: nat)
    requires Distinct(es) && p < |es|
    ensures Touch(es, es[p].key) == es[..p] + es[p + 1..] + [es[p]]
  {
    LookupAt(es, p);
    WithoutAt(es, p);
  }

  /** A `set` of `k` changes no other key's value, except that the evicted key disappears. */
  lemma PutOthers(es: seq<Entry>, k: string, v: Bytes, max: nat, k': string)
    requires Distinct(es) && |es| <= max && 1 <= max && k' != k
    ensures Lookup(Put(es, k, v, max), k') ==
      if Evicts(es, k, max) && k' == es[0].key then None else Lookup(es, k')
  {
    var w := Without(es, k);
    var added := w + [Entry(k, v)];
    WithoutDistinct(es, k);
    AppendDistinct(w, Entry(k, v));
    LookupAppend(w, Entry(k, v), k');
    WithoutLookup(es, k, k');
    if |added| > max {
      DropOldestLookup(added, k');
    }
  }

  /** A `get` changes no lookup and no key, and leaves a hit as the most recent entry. */
  lemma TouchShape(es: seq<Entry>, k: string, k': string)
    requires Distinct(es)
    ensures Distinct(Touch(es, k)) && |Touch(es, k)| == |es| && Keys(Touch(es, k)) == Keys(es)
    ensures Lookup(Touch(es, k), k') == Lookup(es, k')
    ensures k in Keys(es) ==> Touch(es, k)[|es| - 1] == Entry(k, Lookup(es, k).value)
  {
    var r := Lookup(es, k);
    if r.Some? {
      var w := Without(es, k);
      WithoutDistinct(es, k);
      AppendDistinct(w, Entry(k, r.value));
      LookupAppend(w, Entry(k, r.value), k');
      WithoutLookup(es, k, k');
    }
  }

  /** With room for two, storing A, B and C in turn leaves B and C and drops A. */
  lemma {:induction false} KeepsNewestTwo(a: string, b: string, c: string, va: Bytes, vb: Bytes, vc: Bytes)
    requires a != b && b != c && a != c
    ensures Lookup(Put(Put(Put([], a, va, 2), b, vb, 2), c, vc, 2), a) == None
    ensures Lookup(Put(Put(Put([], a, va, 2), b, vb, 2), c, vc, 2), b) == Some(vb)
    ensures Lookup(Put(Put(Put([], a, va, 2), b, vb, 2), c, vc, 2), c) == Some(vc)
  {
    var s1 := Put([], a, va, 2);
    PutShape([], a, va, 2);
    var s2 := Put(s1, b, vb, 2);
    PutShape(s1, b, vb, 2);
    PutOthers(s1, b, vb, 2, a);
    assert s1 == [Entry(a, va)];
    assert s2 == [Entry(a, va), Entry(b, vb)];
    PutShape(s2, c, vc, 2);
    PutOthers(s2, c, vc, 2, a);
    PutOthers(s2, c, vc, 2, b);
  }

  /** The store object: the recency list and its capacity. */
  class Store {
    const max: nat
    var entries: seq<Entry>

    ghost predicate Valid()
      reads this
    {
      1 <= max && |entries| <= max && Distinct(entries)
    }

    /** `createLRU({ max })` */
    constructor (max: nat)
      requires 1 <= max
      ensures Valid() && this.max == max && entries == []
    {
      this.max := max;
      entries := [];
    }

    method Set(key: string, value: Bytes)
      requires Valid()
      modifies this
      ensures Valid()
      ensures entries == Put(old(entries), key, value, max)
    {
      PutShape(entries, key, value, max);
      entries := Put(entries, key, value, max);
    }

    method Get(key: string) returns (r: Option<Bytes>)
      requires Valid()
      modifies this
      ensures Valid()
      ensures r == Lookup(old(entries), key)
      ensures entries == Touch(old(entries), key)
    {
      TouchShape(entries, key, key);
      r := Lookup(entries, key);
      entries := Touch(entries, key);
    }
  }
}
