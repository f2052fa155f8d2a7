/** The cache against a reference that keeps a time stamp per key and evicts the oldest stamp, and
    the retention guarantee that follows. */
module LruRecency {
  import opened Options
  import opened Sets
  import opened Lru

  datatype Cell<V> = Cell(value: V, stamp: nat)

  ghost predicate IsOldest<K, V>(m: map<K, Cell<V>>, k: K) {
    k in m && forall j | j in m && j != k :: m[k].stamp < m[j].stamp
  }

  ghost function Evict<K, V>(m: map<K, Cell<V>>): map<K, Cell<V>> {
    if k :| k in m && IsOldest(m, k) then m - {k} else m
  }

  /** One operation at time `now`: a hit or a write stamps the key, a write of a new key into a full
      cache first evicts the oldest stamp. */
  ghost function StampedStep<K, V>(cap: nat, m: map<K, Cell<V>>, op: Op<K, V>, now: nat): map<K, Cell<V>> {
    match op
    case GetOp(k) => if k in m then m[k := Cell(m[k].value, now)] else m
    case SetOp(k, v) => (if k !in m && |m| >= cap then Evict(m) else m)[k := Cell(v, now)]
  }

  ghost function Stamped<K, V>(cap: nat, t: seq<Op<K, V>>): map<K, Cell<V>> {
    if t == [] then map[] else StampedStep(cap, Stamped(cap, t[..|t| - 1]), t[|t| - 1], |t| - 1)
  }

  // ---------------------------------------------------------------- refinement

  /** The entries list exactly the stamped keys and values, oldest first, all stamped before `now`. */
  ghost predicate Lists<K, V>(es: seq<Entry<K, V>>, m: map<K, Cell<V>>, now: nat) {
    && (forall i | 0 <= i < |es| :: es[i].key in m && m[es[i].key].value == es[i].value && m[es[i].key].stamp < now)
    && (forall i, j | 0 <= i < j < |es| :: m[es[i].key].stamp < m[es[j].key].stamp)
    && (forall k | k in m :: Has(es, k))
  }

  lemma ListsSnoc<K, V>(es: seq<Entry<K, V>>, m: map<K, Cell<V>>, now: nat, e: Entry<K, V>, later: nat)
    requires Lists(es, m, now) && e.key !in m && now < later
    ensures Lists(es + [e], m[e.key := Cell(e.value, now)], later)
  {
    var m' := m[e.key := Cell(e.value, now)];
    forall k | k in m'
      ensures Has(es + [e], k)
    {
      HasSnoc(es, e, k);
    }
  }

  lemma ListsPrefix<K, V>(es: seq<Entry<K, V>>, m: map<K, Cell<V>>, now: nat)
    requires Lists(es, m, now) && es != []
    ensures var e := es[|es| - 1];
            e.key in m && Lists(es[..|es| - 1], m - {e.key}, m[e.key].stamp)
  {
    var n := |es| - 1;
    forall k | k in m - {es[n].key}
      ensures Has(es[..n], k)
    {
      HasSnoc(es[..n], es[n], k);
      assert es == es[..n] + [es[n]];
    }
  }

  lemma ListsLater<K, V>(es: seq<Entry<K, V>>, m: map<K, Cell<V>>, now: nat, later: nat)
    requires Lists(es, m, now) && now <= later
    ensures Lists(es, m, later)
  {
  }

  lemma PutBack<K, V>(m: map<K, Cell<V>>, e: K, k: K)
    requires e in m && e != k
    ensures (m - {e} - {k})[e := m[e]] == m - {k}
  {
  }

  lemma {:induction false} ListsDel<K, V>(es: seq<Entry<K, V>>, m: map<K, Cell<V>>, now: nat, k: K)
    requires Lists(es, m, now)
    ensures Lists(Del(es, k), m - {k}, now)
  {
    if es == [] {
      assert m - {k} == m;
    } else {
      var n := |es| - 1;
      var e := es[n];
      ListsPrefix(es, m, now);
      var m' := m - {e.key};
      ListsDel(es[..n], m', m[e.key].stamp, k);
      if e.key == k {
        assert m' - {k} == m - {k};
        assert Del(es, k) == Del(es[..n], k);
        ListsLater(Del(es, k), m - {k}, m[e.key].stamp, now);
      } else {
        ListsSnoc(Del(es[..n], k), m' - {k}, m[e.key].stamp, e, now);
        PutBack(m, e.key, k);
      }
    }
  }

  lemma ListsTouch<K, V>(es: seq<Entry<K, V>>, m: map<K, Cell<V>>, now: nat, k: K, v: V)
    requires Lists(es, m, now)
    ensures Lists(Touch(es, k, v), m[k := Cell(v, now)], now + 1)
  {
    ListsDel(es, m, now, k);
    ListsSnoc(Del(es, k), m - {k}, now, Entry(k, v), now + 1);
    assert (m - {k})[k := Cell(v, now)] == m[k := Cell(v, now)];
  }

  lemma ListsShape<K, V>(es: seq<Entry<K, V>>, m: map<K, Cell<V>>, now: nat)
    requires Lists(es, m, now)
    ensures Distinct(es) && |es| == |m|
    ensures es != [] ==> IsOldest(m, es[0].key) && Evict(m) == m - {es[0].key}
    ensures forall k :: Lookup(es, k) == if k in m then Some(m[k].value) else None
  {
    ListsSize(es, m, now);
    forall k
      ensures Lookup(es, k) == if k in m then Some(m[k].value) else None
    {
      LookupHas(es, k);
      if Has(es, k) {
        var i :| 0 <= i < |es| && es[i].key == k;
      }
    }
    if es != [] {
      forall j | j in m && j != es[0].key
        ensures m[es[0].key].stamp < m[j].stamp
      {
        var i :| 0 <= i < |es| && es[i].key == j;
      }
    }
  }

  lemma {:induction false} ListsSize<K, V>(es: seq<Entry<K, V>>, m: map<K, Cell<V>>, now: nat)
    requires Lists(es, m, now)
    ensures |es| == |m|
  {
    if es != [] {
      var e := es[|es| - 1];
      ListsPrefix(es, m, now);
      ListsSize(es[..|es| - 1], m - {e.key}, m[e.key].stamp);
      assert m.Keys == (m - {e.key}).Keys + {e.key};
    } else {
      assert m == map[] by {
        assert forall k | k in m :: Has(es, k);
      }
    }
  }

  lemma TouchTail<K, V>(es: seq<Entry<K, V>>, k: K, v: V)
    requires es != [] && Distinct(es) && !Has(es, k)
    ensures Touch(es, k, v)[1..] == Touch(es[1..], k, v)
  {
    var rest := es[1..];
    if Has(rest, k) {
      HasTail(es, k);
    }
    DelSize(rest, k);
    DelSize(es, k);
    assert (es + [Entry(k, v)])[1..] == rest + [Entry(k, v)];
  }

  lemma ListsEvict<K, V>(es: seq<Entry<K, V>>, m: map<K, Cell<V>>, now: nat, k: K, v: V)
    requires Lists(es, m, now) && es != [] && Distinct(es) && !Has(es, k)
    ensures Lists(Touch(es, k, v)[1..], (m - {es[0].key})[k := Cell(v, now)], now + 1)
  {
    ListsDel(es, m, now, es[0].key);
    DelFirst(es);
    ListsTouch(es[1..], m - {es[0].key}, now, k, v);
    TouchTail(es, k, v);
  }

  lemma ListsSet<K, V>(cap: nat, es: seq<Entry<K, V>>, m: map<K, Cell<V>>, now: nat, k: K, v: V)
    requires Lists(es, m, now) && 1 <= cap && |es| <= cap
    ensures Lists(AfterSet(cap, es, k, v), StampedStep(cap, m, SetOp(k, v), now), now + 1)
  {
    ListsShape(es, m, now);
    LookupHas(es, k);
    TouchFacts(es, k, v);
    KeepOne(cap, Touch(es, k, v));
    if k !in m && |m| >= cap {
      ListsEvict(es, m, now, k, v);
    } else {
      ListsTouch(es, m, now, k, v);
    }
  }

  /** Over every trace the ordered map holds what the stamped reference holds, oldest first: order is
      order of last touch, and eviction removes the least recently touched key. */
  lemma {:induction false} RefinesStamped<K, V>(cap: nat, t: seq<Op<K, V>>)
    requires cap >= 1
    ensures Lists(Contents(cap, t), Stamped(cap, t), |t|)
  {
    if t != [] {
      var p, op := t[..|t| - 1], t[|t| - 1];
      RefinesStamped(cap, p);
      Shape(cap, p);
      var es, m := Contents(cap, p), Stamped(cap, p);
      ListsShape(es, m, |p|);
      match op {
        case GetOp(k) =>
          if k in m {
            ListsTouch(es, m, |p|, k, m[k].value);
          }
        case SetOp(k, v) => ListsSet(cap, es, m, |p|, k, v);
      }
    }
  }

  // ---------------------------------------------------------------- retention

  /** Keys other than `k` operated on between `i` and `n`. */
  ghost function Others<K, V>(t: seq<Op<K, V>>, i: nat, n: nat, k: K): set<K>
    requires n <= |t|
  {
    set p | i < p < n && t[p].key != k :: t[p].key
  }

  /** A stamp is the position of an operation on its key. */
  lemma {:induction false} StampsAreTouches<K, V>(cap: nat, t: seq<Op<K, V>>, n: nat, k: K)
    requires n <= |t| && k in Stamped(cap, t[..n])
    ensures Stamped(cap, t[..n])[k].stamp < n && t[Stamped(cap, t[..n])[k].stamp].key == k
  {
    assert n > 0;
    assert t[..n][..n - 1] == t[..n - 1];
    if t[n - 1].key != k {
      StampsAreTouches(cap, t, n - 1, k);
    }
  }

  lemma EvictionNeedsOthers<K, V>(cap: nat, t: seq<Op<K, V>>, i: nat, n: nat, k: K)
    requires n < |t| && t[n].key != k && t[n].key !in Stamped(cap, t[..n])
    requires k in Stamped(cap, t[..n]) && Stamped(cap, t[..n])[k].stamp >= i
    ensures IsOldest(Stamped(cap, t[..n]), k) ==> |Stamped(cap, t[..n])| <= |Others(t, i, n + 1, k)|
  {
    var m := Stamped(cap, t[..n]);
    StampsAreTouches(cap, t, n, k);
    if IsOldest(m, k) {
      var others := Others(t, i, n + 1, k);
      forall x | x in m.Keys - {k} + {t[n].key}
        ensures x in others
      {
        if x != t[n].key {
          StampsAreTouches(cap, t, n, x);
          var p := m[x].stamp;
          assert i < p < n + 1 && t[p].key == x;
        } else {
          assert i < n < n + 1;
        }
      }
      assert |m.Keys - {k} + {t[n].key}| == |m|;
      Within(m.Keys - {k} + {t[n].key}, others);
    }
  }

  lemma StampedSnoc<K, V>(cap: nat, t: seq<Op<K, V>>, q: nat)
    requires q < |t|
    ensures Stamped(cap, t[..q + 1]) == StampedStep(cap, Stamped(cap, t[..q]), t[q], q)
  {
    assert t[..q + 1][..q] == t[..q];
  }

  lemma RetainedStep<K, V>(cap: nat, t: seq<Op<K, V>>, i: nat, q: nat, k: K)
    requires q < |t| && k in Stamped(cap, t[..q]) && i <= Stamped(cap, t[..q])[k].stamp < q
    requires (t[q].SetOp? ==> t[q].key != k) && |Others(t, i, q + 1, k)| < cap
    ensures var m, m' := Stamped(cap, t[..q]), StampedStep(cap, Stamped(cap, t[..q]), t[q], q);
            k in m' && m'[k].value == m[k].value && i <= m'[k].stamp < q + 1
  {
    var m := Stamped(cap, t[..q]);
    if t[q].SetOp? && t[q].key !in m && |m| >= cap {
      EvictionNeedsOthers(cap, t, i, q, k);
    }
    StepRetains(cap, m, t[q], q, k);
  }

  lemma {:induction false} Retained<K, V>(cap: nat, t: seq<Op<K, V>>, i: nat, n: nat)
    requires cap >= 1 && i < n <= |t| && t[i].SetOp?
    requires forall p | i < p < n :: t[p].SetOp? ==> t[p].key != t[i].key
    requires |Others(t, i, n, t[i].key)| < cap
    ensures var m := Stamped(cap, t[..n]);
            t[i].key in m && m[t[i].key].value == t[i].value && i <= m[t[i].key].stamp < n
    decreases n
  {
    var q := n - 1;
    StampedSnoc(cap, t, q);
    if q > i {
      Within(Others(t, i, q, t[i].key), Others(t, i, n, t[i].key));
      Retained(cap, t, i, q);
      RetainedStep(cap, t, i, q, t[i].key);
    }
  }

  /** One operation other than writing `k` leaves `k` with its value unless `k` is evicted. */
  lemma StepRetains<K, V>(cap: nat, m: map<K, Cell<V>>, op: Op<K, V>, now: nat, k: K)
    requires k in m && (op.SetOp? ==> op.key != k) && m[k].stamp <= now
    requires op.SetOp? && op.key !in m && |m| >= cap ==> !IsOldest(m, k)
    ensures var m' := StampedStep(cap, m, op, now);
            k in m' && m'[k].value == m[k].value && m[k].stamp <= m'[k].stamp <= now
  {
  }

  /** Retention: a key is still present with its last written value whenever fewer than `cap`
      distinct other keys were operated on since that write. */
  lemma Retention<K, V>(cap: nat, t: seq<Op<K, V>>, i: nat)
    requires cap >= 1 && i < |t| && t[i].SetOp?
    requires forall p | i < p < |t| :: t[p].SetOp? ==> t[p].key != t[i].key
    requires |Others(t, i, |t|, t[i].key)| < cap
    ensures Lookup(Contents(cap, t), t[i].key) == Some(t[i].value)
  {
    assert t[..|t|] == t;
    Retained(cap, t, i, |t|);
    RefinesStamped(cap, t);
    ListsShape(Contents(cap, t), Stamped(cap, t), |t|);
  }
}
