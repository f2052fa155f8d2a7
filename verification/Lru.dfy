/** The least-recently-used cache over an insertion-ordered map. */
module Lru {
  import opened Options

  datatype Entry<K, V> = Entry(key: K, value: V)

  // ---------------------------------------------------------------- the insertion-ordered map

  predicate Has<K(==), V>(m: seq<Entry<K, V>>, k: K) {
    exists i :: 0 <= i < |m| && m[i].key == k
  }

  function Lookup<K(==), V>(m: seq<Entry<K, V>>, k: K): Option<V> {
    if m == [] then None
    else if m[|m| - 1].key == k then Some(m[|m| - 1].value)
    else Lookup(m[..|m| - 1], k)
  }

  function Del<K(==), V>(m: seq<Entry<K, V>>, k: K): seq<Entry<K, V>> {
    if m == [] then []
    else Del(m[..|m| - 1], k) + if m[|m| - 1].key == k then [] else [m[|m| - 1]]
  }

  /** Setting a present key keeps its place; a new key goes last. */
  function Put<K(==), V>(m: seq<Entry<K, V>>, k: K, v: V): seq<Entry<K, V>> {
    if Has(m, k) then seq(|m|, i requires 0 <= i < |m| => if m[i].key == k then Entry(k, v) else m[i])
    else m + [Entry(k, v)]
  }

  ghost predicate Distinct<K, V>(m: seq<Entry<K, V>>) {
    forall i, j | 0 <= i < j < |m| :: m[i].key != m[j].key
  }

  // ---------------------------------------------------------------- what the operations mean

  /** Move or add the entry to the recent end. */
  function Touch<K(==), V>(m: seq<Entry<K, V>>, k: K, v: V): seq<Entry<K, V>> {
    Del(m, k) + [Entry(k, v)]
  }

  /** The last `cap` entries. */
  function Keep<K, V>(cap: nat, m: seq<Entry<K, V>>): seq<Entry<K, V>> {
    if |m| <= cap then m else m[|m| - cap..]
  }

  function AfterGet<K(==), V>(m: seq<Entry<K, V>>, k: K): seq<Entry<K, V>> {
    match Lookup(m, k)
    case None => m
    case Some(v) => Touch(m, k, v)
  }

  function AfterSet<K(==), V>(cap: nat, m: seq<Entry<K, V>>, k: K, v: V): seq<Entry<K, V>> {
    Keep(cap, Touch(m, k, v))
  }

  lemma {:induction false} LookupHas<K, V>(m: seq<Entry<K, V>>, k: K)
    ensures Lookup(m, k).Some? <==> Has(m, k)
    ensures forall i | 0 <= i < |m| && Distinct(m) && m[i].key == k :: Lookup(m, k) == Some(m[i].value)
  {
    if m != [] {
      LookupHas(m[..|m| - 1], k);
      if Has(m, k) && m[|m| - 1].key != k {
        var i :| 0 <= i < |m| && m[i].key == k;
        assert m[..|m| - 1][i].key == k;
      }
      if Has(m[..|m| - 1], k) {
        var i :| 0 <= i < |m| - 1 && m[..|m| - 1][i].key == k;
        assert m[i].key == k;
      }
    }
  }

  lemma {:induction false} DelMembers<K, V>(m: seq<Entry<K, V>>, k: K)
    ensures forall x | x in Del(m, k) :: x in m && x.key != k
  {
    if m != [] {
      var n := |m| - 1;
      DelMembers(m[..n], k);
      assert m == m[..n] + [m[n]];
    }
  }

  lemma {:induction false} DelDistinct<K, V>(m: seq<Entry<K, V>>, k: K)
    requires Distinct(m)
    ensures Distinct(Del(m, k))
  {
    if m != [] {
      var n := |m| - 1;
      DelDistinct(m[..n], k);
      DelMembers(m[..n], k);
      var d := Del(m[..n], k);
      forall i | 0 <= i < |d|
        ensures d[i].key != m[n].key
      {
        assert d[i] in d && d[i] in m[..n];
        var j :| 0 <= j < n && m[..n][j] == d[i];
      }
    }
  }

  lemma HasMember<K, V>(m: seq<Entry<K, V>>, k: K)
    ensures Has(m, k) <==> exists x :: x in m && x.key == k
  {
    if Has(m, k) {
      var i :| 0 <= i < |m| && m[i].key == k;
      assert m[i] in m;
    }
  }

  lemma HasSnoc<K, V>(m: seq<Entry<K, V>>, e: Entry<K, V>, k: K)
    ensures Has(m + [e], k) <==> Has(m, k) || e.key == k
  {
    assert (m + [e])[|m|] == e;
    if Has(m, k) {
      var i :| 0 <= i < |m| && m[i].key == k;
      assert (m + [e])[i].key == k;
    }
  }

  lemma {:induction false} DelSize<K, V>(m: seq<Entry<K, V>>, k: K)
    requires Distinct(m)
    ensures |Del(m, k)| == |m| - (if Has(m, k) then 1 else 0)
    ensures !Has(m, k) ==> Del(m, k) == m
  {
    if m != [] {
      var n := |m| - 1;
      DelSize(m[..n], k);
      HasSnoc(m[..n], m[n], k);
      assert m == m[..n] + [m[n]];
      assert m[n].key == k ==> !Has(m[..n], k);
    }
  }

  lemma DelFacts<K, V>(m: seq<Entry<K, V>>, k: K)
    requires Distinct(m)
    ensures Distinct(Del(m, k)) && !Has(Del(m, k), k)
    ensures |Del(m, k)| == |m| - (if Has(m, k) then 1 else 0)
    ensures !Has(m, k) ==> Del(m, k) == m
  {
    DelDistinct(m, k);
    DelMembers(m, k);
    DelSize(m, k);
    HasMember(Del(m, k), k);
  }

  // ---------------------------------------------------------------- the cache

  class LRUCache<K(==), V> {
    const capacity: nat
    var entries: seq<Entry<K, V>>

    ghost predicate Valid()
      reads this
    {
      1 <= capacity && |entries| <= capacity && Distinct(entries)
    }

    constructor (capacity: nat)
      requires capacity >= 1
      ensures Valid() && this.capacity == capacity && entries == []
    {
      this.capacity, entries := capacity, [];
    }

    /** Rejects a capacity that is not a positive integer. */
    static method TryNew(capacity: real) returns (r: Option<LRUCache<K, V>>)
      ensures r.Some? <==> capacity == capacity.Floor as real && capacity.Floor >= 1
      ensures r.Some? ==> r.value.Valid() && r.value.capacity as real == capacity && r.value.entries == []
    {
      if capacity != capacity.Floor as real || capacity < 1.0 {
        return None;
      }
      var cache := new LRUCache(capacity.Floor);
      r := Some(cache);
    }

    method Get(k: K) returns (r: Option<V>)
      requires Valid()
      modifies this
      ensures Valid() && r == Lookup(old(entries), k) && entries == AfterGet(old(entries), k)
    {
      LookupHas(entries, k);
      DelFacts(entries, k);
      if !Has(entries, k) {
        return None;
      }
      r := Lookup(entries, k);
      entries := Del(entries, k);
      entries := Put(entries, k, r.value);
    }

    method Set(k: K, v: V)
      requires Valid()
      modifies this
      ensures Valid() && entries == AfterSet(capacity, old(entries), k, v)
    {
      DelFacts(entries, k);
      TouchFacts(entries, k, v);
      if Has(entries, k) {
        entries := Del(entries, k);
      } else if |entries| >= capacity {
        var oldest := entries[0].key;
        DelFirst(entries);
        entries := Del(entries, oldest);
        EvictThenAppend(capacity, old(entries), k, v);
      }
      entries := Put(entries, k, v);
    }

    method HasKey(k: K) returns (r: bool)
      requires Valid()
      ensures r == Lookup(entries, k).Some?
    {
      LookupHas(entries, k);
      r := Has(entries, k);
    }
  }

  lemma HasTail<K, V>(m: seq<Entry<K, V>>, k: K)
    requires m != [] && Has(m[1..], k)
    ensures Has(m, k)
  {
    var i :| 0 <= i < |m[1..]| && m[1..][i].key == k;
    assert m[i + 1].key == k;
  }

  /** Evicting the first entry and appending a new key keeps the last `cap` of the touched entries. */
  lemma EvictThenAppend<K, V>(cap: nat, m: seq<Entry<K, V>>, k: K, v: V)
    requires m != [] && |m| == cap && Distinct(m) && !Has(m, k)
    ensures !Has(m[1..], k) && AfterSet(cap, m, k, v) == m[1..] + [Entry(k, v)]
  {
    if Has(m[1..], k) {
      HasTail(m, k);
    }
    DelSize(m, k);
    assert Touch(m, k, v) == m + [Entry(k, v)];
  }

  lemma {:induction false} DelFirst<K, V>(m: seq<Entry<K, V>>)
    requires m != [] && Distinct(m)
    ensures Del(m, m[0].key) == m[1..]
  {
    var n := |m| - 1;
    if n > 0 {
      DelFirst(m[..n]);
      assert m[n].key != m[0].key;
      assert m[..n][1..] + [m[n]] == m[1..];
    }
  }

  // ---------------------------------------------------------------- traces

  datatype Op<K, V> = GetOp(key: K) | SetOp(key: K, value: V)

  function Apply<K(==), V>(cap: nat, m: seq<Entry<K, V>>, op: Op<K, V>): seq<Entry<K, V>> {
    match op
    case GetOp(k) => AfterGet(m, k)
    case SetOp(k, v) => AfterSet(cap, m, k, v)
  }

  function Contents<K(==), V>(cap: nat, t: seq<Op<K, V>>): seq<Entry<K, V>> {
    if t == [] then [] else Apply(cap, Contents(cap, t[..|t| - 1]), t[|t| - 1])
  }

  lemma TouchFacts<K, V>(m: seq<Entry<K, V>>, k: K, v: V)
    requires Distinct(m)
    ensures Distinct(Touch(m, k, v)) && |Touch(m, k, v)| == |m| + (if Has(m, k) then 0 else 1)
  {
    DelFacts(m, k);
    forall i | 0 <= i < |Del(m, k)|
      ensures Del(m, k)[i].key != k
    {
    }
  }

  /** Keys are distinct and the size never exceeds the capacity. */
  lemma {:induction false} Shape<K, V>(cap: nat, t: seq<Op<K, V>>)
    requires cap >= 1
    ensures Distinct(Contents(cap, t)) && |Contents(cap, t)| <= cap
  {
    if t != [] {
      var m, op := Contents(cap, t[..|t| - 1]), t[|t| - 1];
      Shape(cap, t[..|t| - 1]);
      LookupHas(m, op.key);
      match op {
        case GetOp(k) => if Has(m, k) { TouchFacts(m, k, Lookup(m, k).value); }
        case SetOp(k, v) => TouchFacts(m, k, v);
      }
    }
  }

  // ---------------------------------------------------------------- inclusion

  ghost predicate Sub<T>(a: seq<T>, b: seq<T>) {
    a == [] || (b != [] && ((a[|a| - 1] == b[|b| - 1] && Sub(a[..|a| - 1], b[..|b| - 1])) || Sub(a, b[..|b| - 1])))
  }

  lemma SubSnoc<T>(a: seq<T>, b: seq<T>, x: T)
    requires Sub(a, b)
    ensures Sub(a + [x], b + [x]) && Sub(a, b + [x])
  {
    assert (a + [x])[..|a|] == a && (b + [x])[..|b|] == b;
  }

  lemma {:induction false} SubRefl<T>(a: seq<T>)
    ensures Sub(a, a)
  {
    if a != [] {
      SubRefl(a[..|a| - 1]);
    }
  }

  lemma {:induction false} SubMember<T>(a: seq<T>, b: seq<T>)
    requires Sub(a, b)
    ensures |a| <= |b| && (forall x | x in a :: x in b) && (|a| == |b| ==> a == b)
    decreases |b|
  {
    if a != [] {
      var a', b' := a[..|a| - 1], b[..|b| - 1];
      assert a == a' + [a[|a| - 1]] && b == b' + [b[|b| - 1]];
      if a[|a| - 1] == b[|b| - 1] && Sub(a', b') {
        SubMember(a', b');
      } else {
        SubMember(a, b');
      }
    }
  }

  /** Dropping the first of the shorter, or the first of both, keeps a subsequence. */
  lemma {:induction false} SubTail<T>(a: seq<T>, b: seq<T>)
    requires Sub(a, b) && a != []
    ensures Sub(a[1..], b) && Sub(a[1..], b[1..])
    decreases |b|
  {
    var a', b' := a[..|a| - 1], b[..|b| - 1];
    if |a| > 1 {
      assert a[1..][..|a| - 2] == a'[1..];
      if a[|a| - 1] == b[|b| - 1] && Sub(a', b') {
        SubMember(a', b');
        SubTail(a', b');
        assert b[1..][..|b| - 2] == b'[1..];
      } else {
        SubMember(a, b');
        SubTail(a, b');
        assert b[1..][..|b| - 2] == b'[1..];
      }
    }
  }

  lemma {:induction false} SubDel<K, V>(a: seq<Entry<K, V>>, b: seq<Entry<K, V>>, k: K)
    requires Sub(a, b)
    ensures Sub(Del(a, k), Del(b, k))
    decreases |b|
  {
    if a != [] {
      var a', b' := a[..|a| - 1], b[..|b| - 1];
      var y := b[|b| - 1];
      if a[|a| - 1] == y && Sub(a', b') {
        SubDel(a', b', k);
        if y.key != k {
          SubSnoc(Del(a', k), Del(b', k), y);
        } else {
          assert Del(a, k) == Del(a', k) && Del(b, k) == Del(b', k);
        }
      } else {
        SubDel(a, b', k);
        if y.key != k {
          SubSnoc(Del(a, k), Del(b', k), y);
        } else {
          assert Del(b, k) == Del(b', k);
        }
      }
    }
  }

  /** The smaller cache holds a subsequence of the larger, and all of it until it is full. */
  ghost predicate Included<K, V>(c: nat, a: seq<Entry<K, V>>, b: seq<Entry<K, V>>) {
    Sub(a, b) && (|a| < c ==> a == b)
  }

  lemma SubHas<K, V>(a: seq<Entry<K, V>>, b: seq<Entry<K, V>>, k: K)
    requires Sub(a, b) && Distinct(a) && Distinct(b)
    ensures Has(a, k) ==> Lookup(b, k) == Lookup(a, k) && Lookup(a, k).Some?
  {
    SubMember(a, b);
    LookupHas(a, k);
    LookupHas(b, k);
    if Has(a, k) {
      var i :| 0 <= i < |a| && a[i].key == k;
      assert a[i] in b;
      var j :| 0 <= j < |b| && b[j] == a[i];
      assert Lookup(b, k) == Some(b[j].value);
    }
  }

  lemma IncludedGet<K, V>(c: nat, a: seq<Entry<K, V>>, b: seq<Entry<K, V>>, k: K)
    requires Included(c, a, b) && Distinct(a) && Distinct(b) && |a| <= c
    ensures Included(c, AfterGet(a, k), AfterGet(b, k))
  {
    SubHas(a, b, k);
    LookupHas(a, k);
    LookupHas(b, k);
    DelFacts(a, k);
    DelFacts(b, k);
    SubDel(a, b, k);
    if Has(b, k) {
      SubSnoc(Del(a, k), Del(b, k), Entry(k, Lookup(b, k).value));
    }
  }

  lemma KeepOne<K, V>(cap: nat, m: seq<Entry<K, V>>)
    requires |m| <= cap + 1
    ensures Keep(cap, m) == if |m| <= cap then m else m[1..]
  {
  }

  lemma IncludedSet<K, V>(c: nat, d: nat, a: seq<Entry<K, V>>, b: seq<Entry<K, V>>, k: K, v: V)
    requires Included(c, a, b) && Distinct(a) && Distinct(b) && |a| <= c <= d && |b| <= d && c >= 1
    ensures Included(c, AfterSet(c, a, k, v), AfterSet(d, b, k, v))
  {
    SubHas(a, b, k);
    LookupHas(b, k);
    TouchFacts(a, k, v);
    TouchFacts(b, k, v);
    SubDel(a, b, k);
    var x, y := Touch(a, k, v), Touch(b, k, v);
    SubSnoc(Del(a, k), Del(b, k), Entry(k, v));
    SubMember(x, y);
    SubTail(x, y);
    KeepOne(c, x);
    KeepOne(d, y);
  }

  /** Inclusion: over every trace a smaller capacity holds a subsequence of what a larger one holds. */
  lemma {:induction false} Inclusion<K, V>(c: nat, d: nat, t: seq<Op<K, V>>)
    requires 1 <= c <= d
    ensures Included(c, Contents(c, t), Contents(d, t))
  {
    if t != [] {
      var p, op := t[..|t| - 1], t[|t| - 1];
      Inclusion(c, d, p);
      Shape(c, p);
      Shape(d, p);
      match op {
        case GetOp(k) => IncludedGet(c, Contents(c, p), Contents(d, p), k);
        case SetOp(k, v) => IncludedSet(c, d, Contents(c, p), Contents(d, p), k, v);
      }
    }
  }

  /** A larger cache never misses where a smaller one hits, and answers the same. */
  lemma HitsGrow<K, V>(c: nat, d: nat, t: seq<Op<K, V>>, k: K)
    requires 1 <= c <= d && Lookup(Contents(c, t), k).Some?
    ensures Lookup(Contents(d, t), k) == Lookup(Contents(c, t), k)
  {
    Inclusion(c, d, t);
    Shape(c, t);
    Shape(d, t);
    LookupHas(Contents(c, t), k);
    SubHas(Contents(c, t), Contents(d, t), k);
  }
}
