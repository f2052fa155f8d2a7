/** Channel pairing, run sequentially: a one-time code is issued to an unknown peer, an operator
    approves it, the peer is paired until revoked. */
module Pairing {
  import opened Options
  import opened Sets

  datatype Peer = Peer(channel: string, account: string, id: string)

  /** A pending request row; times are milliseconds. */
  datatype Request = Request(code: string, expires: int)

  /** The store's two tables: requests keyed by peer, and the paired peers. */
  datatype Store = Store(requests: map<Peer, Request>, paired: set<Peer>)

  datatype Config = Config(ttl: int, maxPending: int)

  datatype Reason = Disabled | NotAllowlisted | PairingLimit

  datatype Decision =
    | Allow
    | Deny(reason: Reason)
    | Challenge(code: string, expires: int, issued: bool)

  // ---------------------------------------------------------------- store operations

  /** Codes are unique per channel. */
  ghost predicate UniqueCodes(s: Store) {
    forall p, q | p in s.requests && q in s.requests ::
      p.channel == q.channel && s.requests[p].code == s.requests[q].code ==> p == q
  }

  /** Insert-or-replace on both the peer key and the (channel, code) index: a row of another peer
      that holds the same code on the channel is silently deleted. */
  function Upsert(s: Store, p: Peer, r: Request): Store {
    s.(requests := DeleteCode(s, p.channel, r.code).requests[p := r])
  }

  function DeleteCode(s: Store, channel: string, code: string): Store {
    s.(requests := map q | q in s.requests && !(q.channel == channel && s.requests[q].code == code) :: s.requests[q])
  }

  function Prune(s: Store, now: int): Store {
    s.(requests := map q | q in s.requests && s.requests[q].expires > now :: s.requests[q])
  }

  /** Peers of a channel whose request is unexpired at `now`. */
  function LivePeers(s: Store, channel: string, now: int): set<Peer> {
    set q | q in s.requests && q.channel == channel && s.requests[q].expires > now
  }

  predicate HoldsCode(s: Store, channel: string, code: string, q: Peer) {
    q in s.requests && q.channel == channel && s.requests[q].code == code
  }

  /** The row found by code, if any. */
  ghost function FindByCode(s: Store, channel: string, code: string): (r: Option<Peer>)
    ensures r.Some? ==> HoldsCode(s, channel, code, r.value)
    ensures r.None? ==> forall q :: !HoldsCode(s, channel, code, q)
  {
    if q :| HoldsCode(s, channel, code, q) then Some(q) else None
  }

  // ---------------------------------------------------------------- controller operations

  function Issue(c: Config, s: Store, p: Peer, now: int, code: string): (Store, Decision) {
    var s1 := Prune(s, now);
    if |LivePeers(s1, p.channel, now)| >= c.maxPending then (s1, Deny(PairingLimit))
    else (Upsert(s1, p, Request(code, now + c.ttl)), Challenge(code, now + c.ttl, true))
  }

  function CheckPairing(c: Config, s: Store, p: Peer, now: int, code: string): (Store, Decision) {
    if p in s.paired then (s, Allow)
    else if p in s.requests && s.requests[p].expires > now then
      (s, Challenge(s.requests[p].code, s.requests[p].expires, false))
    else Issue(c, s, p, now, code)
  }

  ghost function Approve(s: Store, channel: string, code: string, now: int): (Store, Option<Peer>) {
    match FindByCode(s, channel, code)
    case None => (s, None)
    case Some(q) =>
      var s1 := DeleteCode(s, channel, code);
      if s.requests[q].expires <= now then (s1, None) else (s1.(paired := s1.paired + {q}), Some(q))
  }

  function Revoke(s: Store, p: Peer): Store {
    s.(paired := s.paired - {p})
  }

  // ---------------------------------------------------------------- what the operations do

  /** The rows of `s` that satisfy `keep`, unchanged, and no other, except perhaps for `p`. */
  ghost predicate Rows(s: Store, t: Store, p: Option<Peer>, keep: Peer -> bool) {
    forall q: Peer | p != Some(q) ::
      (q in t.requests <==> q in s.requests && keep(q)) && (q in t.requests ==> t.requests[q] == s.requests[q])
  }

  /** A check, stated outright: a paired peer is allowed and a live request shown again, both without
      touching the store; else expired rows go, and the peer is refused exactly when the channel's live
      rows reach the cap, or else gets the drawn code for the time to live, replacing any row that holds
      that code on the channel. */
  ghost predicate Checked(c: Config, s: Store, p: Peer, now: int, code: string, t: Store, d: Decision) {
    if p in s.paired then t == s && d == Allow
    else if p in s.requests && s.requests[p].expires > now then
      t == s && d == Challenge(s.requests[p].code, s.requests[p].expires, false)
    else
      && t.paired == s.paired
      && if |set q | q in s.requests && q.channel == p.channel && s.requests[q].expires > now| >= c.maxPending then
           d == Deny(PairingLimit) && Rows(s, t, None, q => q in s.requests && s.requests[q].expires > now)
         else
           && d == Challenge(code, now + c.ttl, true)
           && p in t.requests && t.requests[p] == Request(code, now + c.ttl)
           && Rows(s, t, Some(p), q => q in s.requests && s.requests[q].expires > now &&
                                       !(q.channel == p.channel && s.requests[q].code == code))
  }

  lemma CheckExactly(c: Config, s: Store, p: Peer, now: int, code: string)
    ensures var (t, d) := CheckPairing(c, s, p, now, code); Checked(c, s, p, now, code, t, d)
  {
    if p !in s.paired && !(p in s.requests && s.requests[p].expires > now) {
      assert LivePeers(Prune(s, now), p.channel, now) ==
             set q | q in s.requests && q.channel == p.channel && s.requests[q].expires > now;
    }
  }

  /** An approval: nothing happens unless a row of the channel holds the code; then every such row goes,
      and the peer is paired exactly when it has not expired. */
  ghost predicate Approved(s: Store, channel: string, code: string, now: int, t: Store, g: Option<Peer>) {
    if exists q :: HoldsCode(s, channel, code, q) then
      && Rows(s, t, None, q => q in s.requests && !(q.channel == channel && s.requests[q].code == code))
      && (g.None? ==> t.paired == s.paired &&
                      exists q :: HoldsCode(s, channel, code, q) && s.requests[q].expires <= now)
      && (g.Some? ==> t.paired == s.paired + {g.value} && HoldsCode(s, channel, code, g.value) &&
                      s.requests[g.value].expires > now)
    else t == s && g.None?
  }

  lemma ApproveExactly(s: Store, channel: string, code: string, now: int)
    ensures var (t, g) := Approve(s, channel, code, now); Approved(s, channel, code, now, t, g)
  {
    if q :| HoldsCode(s, channel, code, q) {
      assert FindByCode(s, channel, code).Some?;
    }
  }

  // ---------------------------------------------------------------- histories

  datatype Op =
    | Check(peer: Peer, code: string, now: int)                 // `code` is what the generator would draw
    | Approval(channel: string, code: string, now: int)
    | Revocation(peer: Peer, now: int)

  datatype Answer = Decided(d: Decision) | Granted(peer: Option<Peer>) | Done

  ghost function Perform(c: Config, s: Store, op: Op): (Store, Answer) {
    match op
    case Check(p, code, now) => var (s', d) := CheckPairing(c, s, p, now, code); (s', Decided(d))
    case Approval(channel, code, now) => var (s', g) := Approve(s, channel, code, now); (s', Granted(g))
    case Revocation(p, _) => (Revoke(s, p), Done)
  }

  const EMPTY := Store(map[], {})

  /** The store after the first operations of a history. */
  ghost function After(c: Config, t: seq<Op>): Store {
    if t == [] then EMPTY else Perform(c, After(c, t[..|t| - 1]), t[|t| - 1]).0
  }

  ghost function AnswerAt(c: Config, t: seq<Op>, i: nat): Answer
    requires i < |t|
  {
    Perform(c, After(c, t[..i]), t[i]).1
  }

  /** The clock never runs backward. */
  ghost predicate Monotone(t: seq<Op>) {
    forall i, j | 0 <= i <= j < |t| :: t[i].now <= t[j].now
  }

  ghost predicate IssuedAt(c: Config, t: seq<Op>, i: nat, p: Peer, code: string, expires: int) {
    i < |t| && t[i].Check? && t[i].peer == p && AnswerAt(c, t, i) == Decided(Challenge(code, expires, true))
  }

  ghost predicate GrantedAt(c: Config, t: seq<Op>, j: nat, p: Peer) {
    j < |t| && t[j].Approval? && AnswerAt(c, t, j) == Granted(Some(p))
  }

  /** Operation `k` takes the code off whoever holds it on the channel: an approval of the code, or
      an issue of the same code. */
  ghost predicate TakesCode(c: Config, t: seq<Op>, k: nat, channel: string, code: string)
    requires k < |t|
  {
    match t[k]
    case Approval(ch, cd, _) => ch == channel && cd == code
    case Check(q, _, _) => q.channel == channel && exists e :: AnswerAt(c, t, k) == Decided(Challenge(code, e, true))
    case Revocation(_, _) => false
  }

  /** The code issued at `i` to `p` is still `p`'s to redeem after the first `n` operations. */
  ghost predicate Outstanding(c: Config, t: seq<Op>, i: nat, n: nat, p: Peer, code: string, expires: int)
    requires n <= |t|
  {
    i < n && IssuedAt(c, t, i, p, code, expires) && forall k | i < k < n :: !TakesCode(c, t, k, p.channel, code)
  }

  // ---------------------------------------------------------------- unique codes

  lemma UpsertUnique(s: Store, p: Peer, r: Request)
    requires UniqueCodes(s)
    ensures UniqueCodes(Upsert(s, p, r))
  {
  }

  lemma PerformUnique(c: Config, s: Store, op: Op)
    requires UniqueCodes(s)
    ensures UniqueCodes(Perform(c, s, op).0)
  {
    if op.Check? {
      UpsertUnique(Prune(s, op.now), op.peer, Request(op.code, op.now + c.ttl));
    }
  }

  lemma {:induction false} AfterUnique(c: Config, t: seq<Op>)
    ensures UniqueCodes(After(c, t))
  {
    if t != [] {
      AfterUnique(c, t[..|t| - 1]);
      PerformUnique(c, After(c, t[..|t| - 1]), t[|t| - 1]);
    }
  }

  /** Codes on a channel collide silently: another peer's live request survives an issuing check
      exactly when it is on another channel or holds another code. (The store's comment promises a
      loud failure.) */
  lemma CollisionExactly(c: Config, s: Store, p: Peer, q: Peer, now: int, code: string)
    requires p != q && q in s.requests && s.requests[q].expires > now
    requires CheckPairing(c, s, p, now, code).1 == Challenge(code, now + c.ttl, true)
    requires !(p in s.requests && s.requests[p].expires > now)
    ensures var s' := CheckPairing(c, s, p, now, code).0;
            (q in s'.requests && s'.requests[q] == s.requests[q]) <==>
            (q.channel != p.channel || s.requests[q].code != code)
  {
  }

  // ---------------------------------------------------------------- one step of the history

  lemma PrefixFacts(c: Config, t: seq<Op>, n: nat)
    requires n < |t|
    ensures After(c, t[..n + 1]) == Perform(c, After(c, t[..n]), t[n]).0
  {
    assert t[..n + 1][..n] == t[..n];
  }

  ghost predicate HasLive(s: Store, p: Peer, code: string, expires: int) {
    p in s.requests && s.requests[p] == Request(code, expires)
  }

  /** The operation issues exactly this request, or takes the code off whoever holds it. */
  ghost predicate IssuesIt(c: Config, s: Store, op: Op, p: Peer, code: string, expires: int) {
    op.Check? && op.peer == p && Perform(c, s, op).1 == Decided(Challenge(code, expires, true))
  }

  ghost predicate TakesIt(c: Config, s: Store, op: Op, p: Peer, code: string) {
    || (op.Approval? && op.channel == p.channel && op.code == code)
    || (op.Check? && op.peer.channel == p.channel &&
        exists e :: Perform(c, s, op).1 == Decided(Challenge(code, e, true)))
  }

  lemma CheckLiveStep(c: Config, s: Store, op: Op, p: Peer, code: string, expires: int)
    requires op.Check? && expires > op.now
    ensures HasLive(Perform(c, s, op).0, p, code, expires) <==>
            IssuesIt(c, s, op, p, code, expires) || (HasLive(s, p, code, expires) && !TakesIt(c, s, op, p, code))
  {
    var q, now := op.peer, op.now;
    if q in s.paired || (q in s.requests && s.requests[q].expires > now) {
    } else if |LivePeers(Prune(s, now), q.channel, now)| >= c.maxPending {
    } else {
      assert Perform(c, s, op).1 == Decided(Challenge(op.code, now + c.ttl, true));
    }
  }

  lemma ApprovalLiveStep(c: Config, s: Store, op: Op, p: Peer, code: string, expires: int)
    requires op.Approval? && UniqueCodes(s)
    ensures HasLive(Perform(c, s, op).0, p, code, expires) <==>
            HasLive(s, p, code, expires) && !TakesIt(c, s, op, p, code)
  {
    match FindByCode(s, op.channel, op.code) {
      case None => assert !HoldsCode(s, op.channel, op.code, p);
      case Some(q) =>
    }
  }

  /** What one operation does to a request that is unexpired at the operation's time. */
  lemma LiveStep(c: Config, s: Store, op: Op, p: Peer, code: string, expires: int)
    requires UniqueCodes(s) && expires > op.now
    ensures HasLive(Perform(c, s, op).0, p, code, expires) <==>
            IssuesIt(c, s, op, p, code, expires) || (HasLive(s, p, code, expires) && !TakesIt(c, s, op, p, code))
  {
    match op {
      case Check(_, _, _) => CheckLiveStep(c, s, op, p, code, expires);
      case Approval(_, _, _) => ApprovalLiveStep(c, s, op, p, code, expires);
      case Revocation(_, _) =>
    }
  }

  lemma OutstandingStep(c: Config, t: seq<Op>, i: nat, m: nat, p: Peer, code: string, expires: int)
    requires m < |t|
    ensures Outstanding(c, t, i, m + 1, p, code, expires) <==>
            (i == m && IssuedAt(c, t, m, p, code, expires)) ||
            (Outstanding(c, t, i, m, p, code, expires) && !TakesCode(c, t, m, p.channel, code))
  {
  }

  ghost predicate SomeOutstanding(c: Config, t: seq<Op>, n: nat, p: Peer, code: string, expires: int)
    requires n <= |t|
  {
    exists i: nat :: Outstanding(c, t, i, n, p, code, expires)
  }

  lemma SomeOutstandingStep(c: Config, t: seq<Op>, m: nat, p: Peer, code: string, expires: int)
    requires m < |t|
    ensures SomeOutstanding(c, t, m + 1, p, code, expires) <==>
            IssuedAt(c, t, m, p, code, expires) ||
            (SomeOutstanding(c, t, m, p, code, expires) && !TakesCode(c, t, m, p.channel, code))
  {
    OutstandingStep(c, t, m, m, p, code, expires);
    if SomeOutstanding(c, t, m + 1, p, code, expires) {
      var i: nat :| Outstanding(c, t, i, m + 1, p, code, expires);
      OutstandingStep(c, t, i, m, p, code, expires);
    }
    if SomeOutstanding(c, t, m, p, code, expires) {
      var i: nat :| Outstanding(c, t, i, m, p, code, expires);
      OutstandingStep(c, t, i, m, p, code, expires);
    }
  }

  /** At every point of a history, the requests unexpired at a time no earlier than its operations
      are exactly the outstanding codes. */
  lemma {:induction false} LiveExactly(c: Config, t: seq<Op>, n: nat, now: int, p: Peer, code: string, expires: int)
    requires n <= |t| && (forall k | 0 <= k < n :: t[k].now <= now) && expires > now
    ensures HasLive(After(c, t[..n]), p, code, expires) <==> SomeOutstanding(c, t, n, p, code, expires)
  {
    if n > 0 {
      var m := n - 1;
      LiveExactly(c, t, m, now, p, code, expires);
      PrefixFacts(c, t, m);
      AfterUnique(c, t[..m]);
      LiveStep(c, After(c, t[..m]), t[m], p, code, expires);
      SomeOutstandingStep(c, t, m, p, code, expires);
    } else {
      assert t[..0] == [];
    }
  }

  // ---------------------------------------------------------------- authorisation history

  /** An approval pairs `p` exactly when its code was issued to `p`, is unexpired, and since then was
      neither approved nor issued again on the channel. */
  lemma GrantedExactly(c: Config, t: seq<Op>, j: nat, p: Peer)
    requires Monotone(t) && j < |t|
    ensures GrantedAt(c, t, j, p) <==>
            t[j].Approval? && t[j].channel == p.channel &&
            exists i: nat, e :: e > t[j].now && Outstanding(c, t, i, j, p, t[j].code, e)
  {
    if t[j].Approval? {
      var s := After(c, t[..j]);
      var code, now := t[j].code, t[j].now;
      AfterUnique(c, t[..j]);
      if GrantedAt(c, t, j, p) {
        var e := s.requests[p].expires;
        LiveExactly(c, t, j, now, p, code, e);
        assert HasLive(s, p, code, e);
        var i: nat :| Outstanding(c, t, i, j, p, code, e);
        assert e > now && Outstanding(c, t, i, j, p, code, e);
      }
      if t[j].channel == p.channel {
        if i: nat, e :| e > now && Outstanding(c, t, i, j, p, code, e) {
          LiveExactly(c, t, j, now, p, code, e);
          assert HoldsCode(s, p.channel, code, p);
        }
      }
    }
  }

  ghost predicate PairedBy(c: Config, t: seq<Op>, n: nat, j: nat, p: Peer)
    requires n <= |t|
  {
    j < n && GrantedAt(c, t, j, p) && forall k | j < k < n :: !(t[k].Revocation? && t[k].peer == p)
  }

  lemma PairedByStep(c: Config, t: seq<Op>, m: nat, j: nat, p: Peer)
    requires m < |t|
    ensures PairedBy(c, t, m + 1, j, p) <==>
            (j == m && GrantedAt(c, t, m, p)) || (PairedBy(c, t, m, j, p) && !(t[m].Revocation? && t[m].peer == p))
  {
  }

  lemma PairedStep(c: Config, s: Store, op: Op, p: Peer)
    ensures p in Perform(c, s, op).0.paired <==>
            || (op.Approval? && Perform(c, s, op).1 == Granted(Some(p)))
            || (p in s.paired && !(op.Revocation? && op.peer == p))
  {
  }

  /** A peer is paired exactly when some approval paired it with no revocation since. */
  lemma {:induction false} PairedExactly(c: Config, t: seq<Op>, n: nat, p: Peer)
    requires n <= |t|
    ensures p in After(c, t[..n]).paired <==> exists j: nat :: PairedBy(c, t, n, j, p)
  {
    if n > 0 {
      var m := n - 1;
      PairedExactly(c, t, m, p);
      PrefixFacts(c, t, m);
      PairedStep(c, After(c, t[..m]), t[m], p);
      PairedByStep(c, t, m, m, p);
      forall j: nat
        ensures PairedBy(c, t, n, j, p) <==>
                (j == m && GrantedAt(c, t, m, p)) || (PairedBy(c, t, m, j, p) && !(t[m].Revocation? && t[m].peer == p))
      {
        PairedByStep(c, t, m, j, p);
      }
      if p in After(c, t[..m]).paired {
        var j: nat :| PairedBy(c, t, m, j, p);
        assert PairedBy(c, t, n, j, p) <==> !(t[m].Revocation? && t[m].peer == p);
      }
    } else {
      assert t[..0] == [];
    }
  }

  /** Approval `j` consumed an unexpired code issued at `i` to `p`, and `p` was not revoked before `n`. */
  ghost predicate AuthorisedBy(c: Config, t: seq<Op>, n: nat, p: Peer, j: nat, i: nat, e: int)
    requires n <= |t|
  {
    && j < n && t[j].Approval? && t[j].channel == p.channel && e > t[j].now
    && Outstanding(c, t, i, j, p, t[j].code, e)
    && forall k | j < k < n :: !(t[k].Revocation? && t[k].peer == p)
  }

  /** The authorisation history of a check: allowed exactly when an approval consumed an unexpired
      code issued to this very peer, with no later revocation. */
  lemma AllowedExactly(c: Config, t: seq<Op>, n: nat)
    requires Monotone(t) && n < |t| && t[n].Check?
    ensures AnswerAt(c, t, n) == Decided(Allow) <==>
            exists j: nat, i: nat, e :: AuthorisedBy(c, t, n, t[n].peer, j, i, e)
  {
    var p := t[n].peer;
    PairedExactly(c, t, n, p);
    if j: nat :| PairedBy(c, t, n, j, p) {
      GrantedExactly(c, t, j, p);
      var i: nat, e :| e > t[j].now && Outstanding(c, t, i, j, p, t[j].code, e);
      assert AuthorisedBy(c, t, n, p, j, i, e);
    }
    if j: nat, i: nat, e :| AuthorisedBy(c, t, n, p, j, i, e) {
      GrantedExactly(c, t, j, p);
      assert PairedBy(c, t, n, j, p);
    }
  }

  /** No code is drawn twice for one channel. */
  ghost predicate FreshCodes(c: Config, t: seq<Op>) {
    forall i, k, p, q, code, e, f | 0 <= i < k < |t| ::
      IssuedAt(c, t, i, p, code, e) && IssuedAt(c, t, k, q, code, f) ==> p.channel != q.channel
  }

  /** Between two grants of one code the code was issued again. */
  lemma GrantsNeedIssues(c: Config, t: seq<Op>, j: nat, k: nat, p: Peer, q: Peer)
    requires Monotone(t) && j < k < |t| && GrantedAt(c, t, j, p) && GrantedAt(c, t, k, q)
    requires t[j].channel == t[k].channel && t[j].code == t[k].code
    ensures p.channel == q.channel == t[j].channel
    ensures exists i: nat, l: nat, e, f ::
              i < j < l < k && IssuedAt(c, t, i, p, t[j].code, e) && IssuedAt(c, t, l, q, t[j].code, f)
  {
    GrantedExactly(c, t, j, p);
    GrantedExactly(c, t, k, q);
    var i: nat, e :| e > t[j].now && Outstanding(c, t, i, j, p, t[j].code, e);
    var l: nat, f :| f > t[k].now && Outstanding(c, t, l, k, q, t[k].code, f);
    assert TakesCode(c, t, j, q.channel, t[k].code);
    assert IssuedAt(c, t, i, p, t[j].code, e) && IssuedAt(c, t, l, q, t[j].code, f);
  }

  /** With fresh codes each code pairs at most once. */
  lemma CodesPairOnce(c: Config, t: seq<Op>, j: nat, k: nat, p: Peer, q: Peer)
    requires Monotone(t) && FreshCodes(c, t) && j < k < |t| && GrantedAt(c, t, j, p) && GrantedAt(c, t, k, q)
    ensures t[j].channel != t[k].channel || t[j].code != t[k].code
  {
    if t[j].channel == t[k].channel && t[j].code == t[k].code {
      GrantsNeedIssues(c, t, j, k, p, q);
    }
  }

  /** An unpaired peer is shown a code as not newly issued exactly while that code, with that expiry,
      is outstanding from an earlier issue and unexpired: each request lifetime reports `issued` once. */
  lemma ChallengeIsStable(c: Config, t: seq<Op>, n: nat, code: string, e: int)
    requires Monotone(t) && n < |t| && t[n].Check? && t[n].peer !in After(c, t[..n]).paired
    ensures AnswerAt(c, t, n) == Decided(Challenge(code, e, false)) <==>
            e > t[n].now && SomeOutstanding(c, t, n, t[n].peer, code, e)
    ensures AnswerAt(c, t, n) == Decided(Challenge(code, e, true)) ==>
            forall d, f | f > t[n].now :: !SomeOutstanding(c, t, n, t[n].peer, d, f)
  {
    forall d, f | f > t[n].now
      ensures HasLive(After(c, t[..n]), t[n].peer, d, f) <==> SomeOutstanding(c, t, n, t[n].peer, d, f)
    {
      LiveExactly(c, t, n, t[n].now, t[n].peer, d, f);
    }
    var s := After(c, t[..n]);
    if t[n].peer in s.requests {
      var r := s.requests[t[n].peer];
      assert HasLive(s, t[n].peer, r.code, r.expires);
    }
  }

  /** A collision hands one peer's code to another: the operator approves what A was shown, B is paired. */
  lemma CollisionMisdirects()
    ensures var c := Config(100, 3);
            var a, b := Peer("ch", "", "a"), Peer("ch", "", "b");
            var t := [Check(a, "X", 0), Check(b, "X", 1), Approval("ch", "X", 2)];
            IssuedAt(c, t, 0, a, "X", 100) && GrantedAt(c, t, 2, b) && !FreshCodes(c, t)
  {
    var c := Config(100, 3);
    var a, b := Peer("ch", "", "a"), Peer("ch", "", "b");
    var t := [Check(a, "X", 0), Check(b, "X", 1), Approval("ch", "X", 2)];
    assert t[..0] == [];
    PrefixFacts(c, t, 0);
    PrefixFacts(c, t, 1);
    assert Prune(EMPTY, 0) == EMPTY && LivePeers(EMPTY, "ch", 0) == {};
    var s1 := After(c, t[..1]);
    assert s1.requests == map[a := Request("X", 100)] && s1.paired == {};
    assert Prune(s1, 1).requests == s1.requests;
    assert LivePeers(Prune(s1, 1), "ch", 1) == {a};
    var s2 := After(c, t[..2]);
    assert s2.requests == map[b := Request("X", 101)];
    assert HoldsCode(s2, "ch", "X", b);
    assert IssuedAt(c, t, 0, a, "X", 100) && IssuedAt(c, t, 1, b, "X", 101);
  }

  // ---------------------------------------------------------------- sequential cap

  function Cap(c: Config): nat {
    if c.maxPending < 0 then 0 else c.maxPending
  }

  lemma UpsertLive(s: Store, p: Peer, r: Request, channel: string, now: int)
    ensures |LivePeers(Upsert(s, p, r), channel, now)| <=
            |LivePeers(s, channel, now)| + (if channel == p.channel then 1 else 0)
  {
    var before, after := LivePeers(s, channel, now), LivePeers(Upsert(s, p, r), channel, now);
    if channel == p.channel {
      Within(after, before + {p});
      assert |before + {p}| <= |before| + 1;
    } else {
      Within(after, before);
    }
  }

  lemma LaterFewer(s: Store, channel: string, now: int, later: int)
    requires now <= later
    ensures |LivePeers(s, channel, later)| <= |LivePeers(s, channel, now)|
  {
    Within(LivePeers(s, channel, later), LivePeers(s, channel, now));
  }

  lemma PerformCap(c: Config, s: Store, op: Op, channel: string)
    requires |LivePeers(s, channel, op.now)| <= Cap(c)
    ensures |LivePeers(Perform(c, s, op).0, channel, op.now)| <= Cap(c)
  {
    var s' := Perform(c, s, op).0;
    match op {
      case Check(p, code, now) =>
        var s1 := Prune(s, now);
        assert LivePeers(s1, channel, now) == LivePeers(s, channel, now);
        UpsertLive(s1, p, Request(code, now + c.ttl), channel, now);
      case Approval(ch, code, now) =>
        Within(LivePeers(s', channel, now), LivePeers(s, channel, now));
      case Revocation(p, now) =>
        assert LivePeers(s', channel, now) == LivePeers(s, channel, now);
    }
  }

  /** In every sequential history the unexpired requests of a channel never exceed the cap. */
  lemma {:induction false} SequentialCap(c: Config, t: seq<Op>, n: nat, channel: string)
    requires Monotone(t) && 0 < n <= |t|
    ensures |LivePeers(After(c, t[..n]), channel, t[n - 1].now)| <= Cap(c)
  {
    var m := n - 1;
    PrefixFacts(c, t, m);
    if m > 0 {
      SequentialCap(c, t, m, channel);
      LaterFewer(After(c, t[..m]), channel, t[m - 1].now, t[m].now);
    } else {
      assert t[..0] == [];
      assert LivePeers(EMPTY, channel, t[0].now) == {};
    }
    PerformCap(c, After(c, t[..m]), t[m], channel);
  }
}
