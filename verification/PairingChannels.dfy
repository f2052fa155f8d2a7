/** Channels do not interfere: what a channel answers depends only on that channel's own operations,
    and equivariantly on the codes drawn. */
module PairingChannels {
  import opened Options
  import opened Pairing

  function ChannelOf(op: Op): string {
    match op
    case Check(p, _, _) => p.channel
    case Approval(channel, _, _) => channel
    case Revocation(p, _) => p.channel
  }

  function Project(t: seq<Op>, channel: string): seq<Op> {
    if t == [] then [] else (if ChannelOf(t[0]) == channel then [t[0]] else []) + Project(t[1..], channel)
  }

  /** The answers given on one channel while a history runs from a store. */
  ghost function Answers(c: Config, s: Store, t: seq<Op>, channel: string): seq<Answer>
    decreases |t|
  {
    if t == [] then []
    else
      var (s', a) := Perform(c, s, t[0]);
      (if ChannelOf(t[0]) == channel then [a] else []) + Answers(c, s', t[1..], channel)
  }

  ghost predicate From(t: seq<Op>, now: int) {
    Monotone(t) && forall k | 0 <= k < |t| :: now <= t[k].now
  }

  // ---------------------------------------------------------------- stores alike on a channel

  ghost predicate LiveAt(s: Store, p: Peer, now: int) {
    p in s.requests && s.requests[p].expires > now
  }

  /** Alike on a channel from `now` on: same paired peers, same unexpired requests. */
  ghost predicate Alike(s: Store, s': Store, channel: string, now: int) {
    forall p: Peer | p.channel == channel ::
      && (p in s.paired <==> p in s'.paired)
      && (LiveAt(s, p, now) <==> LiveAt(s', p, now))
      && (LiveAt(s, p, now) ==> s.requests[p] == s'.requests[p])
  }

  lemma AlikeLater(s: Store, s': Store, channel: string, now: int, later: int)
    requires Alike(s, s', channel, now) && now <= later
    ensures Alike(s, s', channel, later)
  {
    forall p: Peer | p.channel == channel
      ensures LiveAt(s, p, later) <==> LiveAt(s', p, later)
      ensures LiveAt(s, p, later) ==> s.requests[p] == s'.requests[p]
    {
      assert LiveAt(s, p, now) <==> LiveAt(s', p, now);
    }
  }

  /** An operation of another channel leaves the store alike. */
  lemma OtherChannel(c: Config, s: Store, op: Op, channel: string)
    requires ChannelOf(op) != channel
    ensures Alike(Perform(c, s, op).0, s, channel, op.now)
  {
  }

  lemma AlikeCheck(c: Config, s: Store, s': Store, op: Op)
    requires op.Check? && Alike(s, s', ChannelOf(op), op.now)
    ensures Perform(c, s, op).1 == Perform(c, s', op).1
    ensures Alike(Perform(c, s, op).0, Perform(c, s', op).0, ChannelOf(op), op.now)
  {
    var ch, now := ChannelOf(op), op.now;
    assert LiveAt(s, op.peer, now) <==> LiveAt(s', op.peer, now);
    var l, l' := LivePeers(Prune(s, now), ch, now), LivePeers(Prune(s', now), ch, now);
    forall p: Peer
      ensures p in l <==> p in l'
    {
      assert p in l <==> p.channel == ch && LiveAt(s, p, now);
      assert p in l' <==> p.channel == ch && LiveAt(s', p, now);
    }
    assert l == l';
    AlikePruned(s, s', ch, now);
    AlikeUpsert(Prune(s, now), Prune(s', now), op.peer, Request(op.code, now + c.ttl), now);
  }

  lemma AlikePruned(s: Store, s': Store, channel: string, now: int)
    requires Alike(s, s', channel, now)
    ensures Alike(Prune(s, now), Prune(s', now), channel, now)
  {
    forall p: Peer
      ensures LiveAt(Prune(s, now), p, now) <==> LiveAt(s, p, now)
      ensures LiveAt(Prune(s', now), p, now) <==> LiveAt(s', p, now)
    {
    }
  }

  lemma AlikeUpsert(s: Store, s': Store, p: Peer, r: Request, now: int)
    requires Alike(s, s', p.channel, now)
    ensures Alike(Upsert(s, p, r), Upsert(s', p, r), p.channel, now)
  {
    forall q: Peer | q.channel == p.channel && q != p
      ensures LiveAt(Upsert(s, p, r), q, now) <==> LiveAt(s, q, now) && s.requests[q].code != r.code
      ensures LiveAt(Upsert(s', p, r), q, now) <==> LiveAt(s', q, now) && s'.requests[q].code != r.code
    {
    }
  }

  lemma AlikeApproval(c: Config, s: Store, s': Store, op: Op)
    requires op.Approval? && Alike(s, s', ChannelOf(op), op.now) && UniqueCodes(s) && UniqueCodes(s')
    ensures Perform(c, s, op).1 == Perform(c, s', op).1
    ensures Alike(Perform(c, s, op).0, Perform(c, s', op).0, ChannelOf(op), op.now)
  {
    var ch, code, now := op.channel, op.code, op.now;
    forall q: Peer | q.channel == ch && LiveAt(s, q, now)
      ensures HoldsCode(s, ch, code, q) <==> HoldsCode(s', ch, code, q)
    {
    }
    assert FindByCode(s, ch, code).Some? && LiveAt(s, FindByCode(s, ch, code).value, now) ==>
        HoldsCode(s', ch, code, FindByCode(s, ch, code).value);
    assert FindByCode(s', ch, code).Some? && LiveAt(s', FindByCode(s', ch, code).value, now) ==>
        HoldsCode(s, ch, code, FindByCode(s', ch, code).value);
    AlikeDelete(s, s', ch, code, now);
    ApproveDeletes(s, ch, code, now);
    ApproveDeletes(s', ch, code, now);
  }

  lemma ApproveDeletes(s: Store, channel: string, code: string, now: int)
    ensures Approve(s, channel, code, now).0.requests == DeleteCode(s, channel, code).requests
    ensures Approve(s, channel, code, now).0.paired ==
            s.paired + (if Approve(s, channel, code, now).1.Some? then {Approve(s, channel, code, now).1.value} else {})
  {
    if FindByCode(s, channel, code).None? {
      forall q | q in s.requests
        ensures !HoldsCode(s, channel, code, q)
      {
      }
    }
  }

  lemma AlikeDelete(s: Store, s': Store, channel: string, code: string, now: int)
    requires Alike(s, s', channel, now)
    ensures Alike(DeleteCode(s, channel, code), DeleteCode(s', channel, code), channel, now)
  {
    forall q: Peer | q.channel == channel
      ensures LiveAt(DeleteCode(s, channel, code), q, now) <==> LiveAt(s, q, now) && s.requests[q].code != code
      ensures LiveAt(DeleteCode(s', channel, code), q, now) <==> LiveAt(s', q, now) && s'.requests[q].code != code
    {
    }
  }

  /** Alike stores give the same answer to an operation of the channel and stay alike. */
  lemma AlikeStep(c: Config, s: Store, s': Store, op: Op)
    requires Alike(s, s', ChannelOf(op), op.now) && UniqueCodes(s) && UniqueCodes(s')
    ensures Perform(c, s, op).1 == Perform(c, s', op).1
    ensures Alike(Perform(c, s, op).0, Perform(c, s', op).0, ChannelOf(op), op.now)
  {
    match op {
      case Check(_, _, _) => AlikeCheck(c, s, s', op);
      case Approval(_, _, _) => AlikeApproval(c, s, s', op);
      case Revocation(p, now) =>
        forall q: Peer
          ensures LiveAt(Revoke(s, p), q, now) <==> LiveAt(s, q, now)
          ensures LiveAt(Revoke(s', p), q, now) <==> LiveAt(s', q, now)
        {
        }
    }
  }

  // ---------------------------------------------------------------- whole histories

  /** Dropping every operation of the other channels, and starting from any store alike on this
      one, leaves the channel's answers as they were. */
  lemma {:induction false} ProjectionAnswers(c: Config, s: Store, s': Store, t: seq<Op>, channel: string, now: int)
    requires Alike(s, s', channel, now) && UniqueCodes(s) && UniqueCodes(s') && From(t, now)
    ensures Answers(c, s, t, channel) == Answers(c, s', Project(t, channel), channel)
    decreases |t|
  {
    if t != [] {
      var op, rest := t[0], t[1..];
      var p := Project(rest, channel);
      PerformUnique(c, s, op);
      AlikeLater(s, s', channel, now, op.now);
      if ChannelOf(op) == channel {
        PerformUnique(c, s', op);
        AlikeStep(c, s, s', op);
        ProjectionAnswers(c, Perform(c, s, op).0, Perform(c, s', op).0, rest, channel, op.now);
        assert ([op] + p)[1..] == p;
      } else {
        OtherChannel(c, s, op, channel);
        AlikeTrans(Perform(c, s, op).0, s, s', channel, op.now);
        ProjectionAnswers(c, Perform(c, s, op).0, s', rest, channel, op.now);
        assert [] + p == p;
      }
    }
  }

  lemma AlikeTrans(s: Store, s1: Store, s2: Store, channel: string, now: int)
    requires Alike(s, s1, channel, now) && Alike(s1, s2, channel, now)
    ensures Alike(s, s2, channel, now)
  {
    forall p: Peer | p.channel == channel
      ensures (p in s.paired <==> p in s2.paired) && (LiveAt(s, p, now) <==> LiveAt(s2, p, now))
      ensures LiveAt(s, p, now) ==> s.requests[p] == s2.requests[p]
    {
      assert LiveAt(s1, p, now) <==> LiveAt(s2, p, now);
      assert LiveAt(s, p, now) <==> LiveAt(s1, p, now);
    }
  }

  /** Pruning expired requests is unobservable: no later operation on any channel answers differently. */
  lemma PruneIsUnobservable(c: Config, s: Store, t: seq<Op>, channel: string, now: int)
    requires UniqueCodes(s) && From(t, now)
    ensures Answers(c, Prune(s, now), t, channel) == Answers(c, s, t, channel)
  {
    ProjectionAnswers(c, Prune(s, now), Prune(s, now), t, channel, now);
    ProjectionAnswers(c, s, Prune(s, now), t, channel, now);
  }

  // ---------------------------------------------------------------- renaming of codes

  ghost predicate Injective(f: string -> string) {
    forall a, b | f(a) == f(b) :: a == b
  }

  function RenameOp(f: string -> string, op: Op): Op {
    match op
    case Check(p, code, now) => Check(p, f(code), now)
    case Approval(channel, code, now) => Approval(channel, f(code), now)
    case Revocation(p, now) => op
  }

  function RenameOps(f: string -> string, t: seq<Op>): seq<Op> {
    if t == [] then [] else [RenameOp(f, t[0])] + RenameOps(f, t[1..])
  }

  function RenameAnswer(f: string -> string, a: Answer): Answer {
    match a
    case Decided(Challenge(code, expires, issued)) => Decided(Challenge(f(code), expires, issued))
    case _ => a
  }

  function RenameAnswers(f: string -> string, a: seq<Answer>): seq<Answer> {
    if a == [] then [] else [RenameAnswer(f, a[0])] + RenameAnswers(f, a[1..])
  }

  function RenameStore(f: string -> string, s: Store): Store {
    s.(requests := map q | q in s.requests :: Request(f(s.requests[q].code), s.requests[q].expires))
  }

  lemma RenamePrune(f: string -> string, s: Store, channel: string, now: int)
    ensures RenameStore(f, Prune(s, now)) == Prune(RenameStore(f, s), now)
    ensures LivePeers(RenameStore(f, s), channel, now) == LivePeers(s, channel, now)
  {
    assert RenameStore(f, Prune(s, now)).requests == Prune(RenameStore(f, s), now).requests;
  }

  lemma RenameUpsert(f: string -> string, s: Store, p: Peer, r: Request)
    requires Injective(f)
    ensures RenameStore(f, Upsert(s, p, r)) == Upsert(RenameStore(f, s), p, Request(f(r.code), r.expires))
  {
    var a := RenameStore(f, Upsert(s, p, r)).requests;
    var b := Upsert(RenameStore(f, s), p, Request(f(r.code), r.expires)).requests;
    forall q
      ensures q in a <==> q in b
    {
      if q in s.requests && q != p {
        assert f(s.requests[q].code) == f(r.code) <==> s.requests[q].code == r.code;
      }
    }
    assert a == b;
  }

  lemma RenameDelete(f: string -> string, s: Store, channel: string, code: string)
    requires Injective(f)
    ensures RenameStore(f, DeleteCode(s, channel, code)) == DeleteCode(RenameStore(f, s), channel, f(code))
  {
    var a := RenameStore(f, DeleteCode(s, channel, code)).requests;
    var b := DeleteCode(RenameStore(f, s), channel, f(code)).requests;
    forall q
      ensures q in a <==> q in b
    {
      if q in s.requests {
        assert f(s.requests[q].code) == f(code) <==> s.requests[q].code == code;
      }
    }
    assert a == b;
  }

  lemma RenameFind(f: string -> string, s: Store, channel: string, code: string)
    requires Injective(f) && UniqueCodes(s)
    ensures FindByCode(RenameStore(f, s), channel, f(code)) == FindByCode(s, channel, code)
  {
    var s' := RenameStore(f, s);
    forall q
      ensures HoldsCode(s', channel, f(code), q) <==> HoldsCode(s, channel, code, q)
    {
    }
  }

  lemma RenameUpsertPruned(f: string -> string, s: Store, p: Peer, now: int, r: Request)
    requires Injective(f)
    ensures RenameStore(f, Upsert(Prune(s, now), p, r)) ==
            Upsert(Prune(RenameStore(f, s), now), p, Request(f(r.code), r.expires))
  {
    RenamePrune(f, s, p.channel, now);
    RenameUpsert(f, Prune(s, now), p, r);
  }

  lemma RenameCount(f: string -> string, s: Store, channel: string, now: int)
    ensures LivePeers(Prune(RenameStore(f, s), now), channel, now) == LivePeers(Prune(s, now), channel, now)
  {
    RenamePrune(f, s, channel, now);
    RenamePrune(f, Prune(s, now), channel, now);
  }

  lemma IssueCases(c: Config, s: Store, p: Peer, now: int, code: string, live: nat)
    requires live == |LivePeers(Prune(s, now), p.channel, now)|
    ensures live >= c.maxPending ==> Issue(c, s, p, now, code) == (Prune(s, now), Deny(PairingLimit))
    ensures live < c.maxPending ==>
              Issue(c, s, p, now, code) ==
              (Upsert(Prune(s, now), p, Request(code, now + c.ttl)), Challenge(code, now + c.ttl, true))
  {
  }

  lemma RenameIssue(f: string -> string, c: Config, s: Store, p: Peer, code: string, now: int)
    requires Injective(f)
    ensures Issue(c, RenameStore(f, s), p, now, f(code)).0 == RenameStore(f, Issue(c, s, p, now, code).0)
    ensures Decided(Issue(c, RenameStore(f, s), p, now, f(code)).1) ==
            RenameAnswer(f, Decided(Issue(c, s, p, now, code).1))
  {
    var live := |LivePeers(Prune(s, now), p.channel, now)|;
    assert live == |LivePeers(Prune(RenameStore(f, s), now), p.channel, now)| by { RenameCount(f, s, p.channel, now); }
    IssueCases(c, s, p, now, code, live);
    IssueCases(c, RenameStore(f, s), p, now, f(code), live);
    if live >= c.maxPending {
      RenamePrune(f, s, p.channel, now);
    } else {
      RenameUpsertPruned(f, s, p, now, Request(code, now + c.ttl));
    }
  }

  lemma RenameCheck(f: string -> string, c: Config, s: Store, p: Peer, code: string, now: int)
    requires Injective(f)
    ensures var (s', d) := CheckPairing(c, s, p, now, code);
            var (r', e) := CheckPairing(c, RenameStore(f, s), p, now, f(code));
            r' == RenameStore(f, s') && Decided(e) == RenameAnswer(f, Decided(d))
  {
    var r := RenameStore(f, s);
    assert r.paired == s.paired;
    if p in s.paired {
    } else if p in s.requests && s.requests[p].expires > now {
      assert r.requests[p] == Request(f(s.requests[p].code), s.requests[p].expires);
    } else {
      assert !(p in r.requests && r.requests[p].expires > now);
      RenameIssue(f, c, s, p, code, now);
    }
  }

  lemma RenameApproval(f: string -> string, s: Store, channel: string, code: string, now: int)
    requires Injective(f) && UniqueCodes(s)
    ensures Approve(RenameStore(f, s), channel, f(code), now).0 == RenameStore(f, Approve(s, channel, code, now).0)
    ensures Approve(RenameStore(f, s), channel, f(code), now).1 == Approve(s, channel, code, now).1
  {
    RenameFind(f, s, channel, code);
    RenameDelete(f, s, channel, code);
    match FindByCode(s, channel, code) {
      case None =>
      case Some(q) =>
        assert RenameStore(f, s).requests[q].expires == s.requests[q].expires;
        var s1 := DeleteCode(s, channel, code);
        RenamePaired(f, s1, s1.paired + {q});
    }
  }

  lemma RenamePaired(f: string -> string, s: Store, paired: set<Peer>)
    ensures RenameStore(f, s.(paired := paired)) == RenameStore(f, s).(paired := paired)
  {
    assert RenameStore(f, s.(paired := paired)).requests == RenameStore(f, s).requests;
  }

  lemma RenamePerform(f: string -> string, c: Config, s: Store, op: Op)
    requires Injective(f) && UniqueCodes(s)
    ensures Perform(c, RenameStore(f, s), RenameOp(f, op)).0 == RenameStore(f, Perform(c, s, op).0)
    ensures Perform(c, RenameStore(f, s), RenameOp(f, op)).1 == RenameAnswer(f, Perform(c, s, op).1)
  {
    match op {
      case Check(p, code, now) => RenameCheck(f, c, s, p, code, now);
      case Approval(channel, code, now) => RenameApproval(f, s, channel, code, now);
      case Revocation(p, now) => RenamePaired(f, s, s.paired - {p});
    }
  }

  lemma RenameConcat(f: string -> string, a: seq<Answer>, b: seq<Answer>)
    requires |a| <= 1
    ensures RenameAnswers(f, a + b) == RenameAnswers(f, a) + RenameAnswers(f, b)
  {
    if |a| == 1 {
      assert (a + b)[1..] == b && a[1..] == [];
    } else {
      assert a + b == b;
    }
  }

  /** Renaming the drawn and approved codes renames the answers and changes nothing else. */
  lemma {:induction false} RenamedAnswers(f: string -> string, c: Config, s: Store, t: seq<Op>, channel: string)
    requires Injective(f) && UniqueCodes(s)
    ensures Answers(c, RenameStore(f, s), RenameOps(f, t), channel) == RenameAnswers(f, Answers(c, s, t, channel))
    decreases |t|
  {
    if t != [] {
      var op, rest := t[0], t[1..];
      PerformUnique(c, s, op);
      RenamePerform(f, c, s, op);
      RenamedAnswers(f, c, Perform(c, s, op).0, rest, channel);
      assert RenameOps(f, t)[1..] == RenameOps(f, rest);
      var first := if ChannelOf(op) == channel then [Perform(c, s, op).1] else [];
      RenameConcat(f, first, Answers(c, Perform(c, s, op).0, rest, channel));
    }
  }

  /** Channel non-interference: two histories that agree on one channel's operations and their
      times, up to an injective renaming of codes, answer alike on it up to that renaming. */
  lemma ChannelsDoNotInterfere(f: string -> string, c: Config, t: seq<Op>, t': seq<Op>, channel: string)
    requires Injective(f) && Monotone(t) && Monotone(t') && Project(t', channel) == RenameOps(f, Project(t, channel))
    ensures Answers(c, EMPTY, t', channel) == RenameAnswers(f, Answers(c, EMPTY, t, channel))
  {
    FromFirst(c, t, channel);
    FromFirst(c, t', channel);
    assert RenameStore(f, EMPTY) == EMPTY;
    RenamedAnswers(f, c, EMPTY, Project(t, channel), channel);
  }

  lemma FromFirst(c: Config, t: seq<Op>, channel: string)
    requires Monotone(t)
    ensures Answers(c, EMPTY, t, channel) == Answers(c, EMPTY, Project(t, channel), channel)
  {
    if t != [] {
      ProjectionAnswers(c, EMPTY, EMPTY, t, channel, t[0].now);
    }
  }
}
