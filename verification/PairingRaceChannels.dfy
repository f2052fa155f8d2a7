/** Channels under interleaving. The prune of expired requests is the one step of a call that touches
    other channels' rows: exactly when a check can see it, a run in which one does, and that without
    such steps a channel's calls proceed as if the others did not exist. */
module PairingRaceChannels {
  import opened Options
  import opened Pairing
  import opened PairingRace
  import opened PairingRaceSafety

  // ---------------------------------------------------------------- when a prune is seen

  /** A row that expired after `at` and by `later`. */
  predicate Between(s: Store, q: Peer, at: int, later: int) {
    q in s.requests && at < s.requests[q].expires <= later
  }

  /** A prune at `later` changes what a check that read the clock at `at` looks up exactly when its own
      row expired in between, and what it counts exactly when some row of the channel did. */
  lemma PruneSeenExactly(s: Store, p: Peer, at: int, later: int)
    ensures var t := Prune(s, later);
            ((p in t.requests && t.requests[p].expires > at) <==> (p in s.requests && s.requests[p].expires > at)) <==>
            !Between(s, p, at, later)
    ensures LivePeers(Prune(s, later), p.channel, at) == LivePeers(s, p.channel, at) <==>
            forall q | q in s.requests && q.channel == p.channel :: !Between(s, q, at, later)
  {
    var t := Prune(s, later);
    if LivePeers(t, p.channel, at) == LivePeers(s, p.channel, at) {
      forall q | q in s.requests && q.channel == p.channel
        ensures !Between(s, q, at, later)
      {
        assert q in LivePeers(s, p.channel, at) ==> q in LivePeers(t, p.channel, at);
      }
    }
  }

  lemma StepTo(c: Config, w: World, id: nat, drawn: string, n: nat)
    requires id in w.tasks && n > 0
    ensures Advances(c, w, id, drawn, n) == Advances(c, AdvanceTask(c, w, id, drawn), id, drawn, n - 1)
  {
  }

  /** A check reads the clock. */
  lemma ReadClock(c: Config, w: World, id: nat, p: Peer)
    requires id in w.tasks && w.tasks[id] == Checking(p, Asking) && p !in w.store.paired
    ensures Advances(c, w, id, "", 2) == w.(tasks := w.tasks[id := Checking(p, Finding(w.clock))])
  {
    var w1 := AdvanceTask(c, w, id, "");
    StepTo(c, w, id, "", 2);
    StepTo(c, w1, id, "", 1);
    assert w1.tasks == w.tasks[id := Checking(p, Clocking)];
    assert AdvanceTask(c, w1, id, "").tasks == w.tasks[id := Checking(p, Finding(w.clock))];
  }

  /** A check without a request of its own reads the clock and prunes. */
  lemma ReadAndPrune(c: Config, w: World, id: nat, r: Peer)
    requires id in w.tasks && w.tasks[id] == Checking(r, Asking) && r !in w.store.paired && r !in w.store.requests
    ensures Advances(c, w, id, "", 4) ==
            w.(store := Prune(w.store, w.clock), tasks := w.tasks[id := Checking(r, Counting(w.clock))])
  {
    var w1 := AdvanceTask(c, w, id, "");
    var w2 := AdvanceTask(c, w1, id, "");
    var w3 := AdvanceTask(c, w2, id, "");
    var w4 := AdvanceTask(c, w3, id, "");
    StepTo(c, w, id, "", 4);
    StepTo(c, w1, id, "", 3);
    StepTo(c, w2, id, "", 2);
    StepTo(c, w3, id, "", 1);
    assert w1.tasks == w.tasks[id := Checking(r, Clocking)];
    assert w2.tasks == w.tasks[id := Checking(r, Finding(w.clock))];
    assert w3.tasks == w.tasks[id := Checking(r, Pruning(w.clock))];
    assert w4.tasks == w.tasks[id := Checking(r, Counting(w.clock))];
  }

  /** A check that finds no request of its own issues a code while the cap allows. */
  lemma FindAndIssue(c: Config, w: World, id: nat, p: Peer, at: int, drawn: string)
    requires id in w.tasks && w.tasks[id] == Checking(p, Finding(at)) && p !in w.store.requests
    requires |LivePeers(Prune(w.store, at), p.channel, at)| < c.maxPending
    ensures var r := Advances(c, w, id, drawn, 4);
            id in r.tasks && r.tasks[id] == Checking(p, Answered(Challenge(drawn, at + c.ttl, true)))
  {
    var w1 := AdvanceTask(c, w, id, drawn);
    StepTo(c, w, id, drawn, 4);
    assert w1.tasks == w.tasks[id := Checking(p, Pruning(at))] && w1.store == w.store;
    IssueAlone(c, w1, id, p, at, drawn);
  }

  /** From every world in which a peer's request is live: its check reads the clock, then time passes the
      expiry and a check on another channel prunes; the peer is issued a second code, where it would
      have been shown the first again. */
  lemma PruneIssuesTwice(c: Config, w: World, i: nat, j: nat, p: Peer, r: Peer, later: int, drawn: string)
    requires i !in w.tasks && j !in w.tasks && i != j && r.channel != p.channel
    requires p !in w.store.paired && r !in w.store.paired && r !in w.store.requests
    requires Between(w.store, p, w.clock, later)
    requires |LivePeers(Prune(Prune(w.store, later), w.clock), p.channel, w.clock)| < c.maxPending
    ensures var w1 := Advances(c, Next(c, w, StartCheck(i, p)), i, "", 2);
            Enabled(w1, Tick(later)) &&
            var w2 := Next(c, w1, Tick(later));
            i in w2.tasks && Enabled(w2, StartCheck(j, r)) &&
            var w3 := Advances(c, Next(c, w2, StartCheck(j, r)), j, "", 4);
            && AdvanceTask(c, w2, i, drawn).tasks[i] ==
               Checking(p, Answered(Challenge(w.store.requests[p].code, w.store.requests[p].expires, false)))
            && i in w3.tasks && i in Advances(c, w3, i, drawn, 4).tasks
            && Advances(c, w3, i, drawn, 4).tasks[i] == Checking(p, Answered(Challenge(drawn, w.clock + c.ttl, true)))
  {
    ReadClock(c, Next(c, w, StartCheck(i, p)), i, p);
    var w1 := Advances(c, Next(c, w, StartCheck(i, p)), i, "", 2);
    var w2 := Next(c, w1, Tick(later));
    ReadAndPrune(c, Next(c, w2, StartCheck(j, r)), j, r);
    var w3 := Advances(c, Next(c, w2, StartCheck(j, r)), j, "", 4);
    assert w3.store == Prune(w.store, later) && w3.tasks[i] == Checking(p, Finding(w.clock));
    FindAndIssue(c, w3, i, p, w.clock, drawn);
  }

  // ---------------------------------------------------------------- a channel's own run

  function ChannelOf(t: Task): string {
    if t.Checking? then t.peer.channel else t.channel
  }

  /** The event is the clock's or belongs to the channel. */
  predicate Concerns(w: World, ev: Event, channel: string) {
    match ev
    case StartCheck(_, p) => p.channel == channel
    case StartApproval(_, ch, _) => ch == channel
    case Advance(id, _) => id in w.tasks && ChannelOf(w.tasks[id]) == channel
    case RevokePeer(p) => p.channel == channel
    case Tick(_) => true
  }

  /** A check of the channel between its clock reading and its last look at the requests. */
  predicate Reads(t: Task, channel: string) {
    t.Checking? && t.peer.channel == channel && (t.phase.Finding? || t.phase.Pruning? || t.phase.Counting?)
  }

  function Reading(t: Task): int
    requires t.Checking? && (t.phase.Finding? || t.phase.Pruning? || t.phase.Counting?)
  {
    t.phase.at
  }

  /** No prune by another channel is seen, and no code is drawn that an approval on the channel named. */
  ghost predicate Undisturbed(w: World, ev: Event, channel: string) {
    ev.Advance? && ev.id in w.tasks && w.tasks[ev.id].Checking? ==>
      var t := w.tasks[ev.id];
      && (t.peer.channel != channel && t.phase.Pruning? ==>
            forall id, q | id in w.tasks && Reads(w.tasks[id], channel) && q in w.store.requests &&
                           q.channel == channel ::
              !Between(w.store, q, Reading(w.tasks[id]), t.phase.at))
      && (t.peer.channel == channel && t.phase.Writing? ==>
            forall id | id in w.tasks :: !ForCode(w.tasks[id], channel, ev.drawn))
  }

  /** A request that has expired for the clock and for every check of the channel in flight. */
  ghost predicate Stale(w: World, channel: string, expires: int) {
    expires <= w.clock && forall id | id in w.tasks && Reads(w.tasks[id], channel) :: expires <= Reading(w.tasks[id])
  }

  /** The channel's rows, save for stale ones that only `u` still has. */
  ghost predicate SameRows(w: World, u: World, channel: string) {
    && UniqueCodes(u.store)
    && (forall p | p in w.store.requests && p.channel == channel ::
          p in u.store.requests && u.store.requests[p] == w.store.requests[p])
    && (forall p | p in u.store.requests && p.channel == channel && p !in w.store.requests ::
          Stale(w, channel, u.store.requests[p].expires))
  }

  ghost predicate SamePairs(w: World, u: World, channel: string) {
    u.clock == w.clock && forall p: Peer | p.channel == channel :: p in w.store.paired <==> p in u.store.paired
  }

  /** In `u` the approval found a stale row that `w` no longer has. */
  ghost predicate Lags(w: World, t: Task, v: Task) {
    && t.Approving? && t.stage == Concluded(None) && v.Approving? && v.channel == t.channel && v.code == t.code
    && (v.stage.Deleting? || v.stage.Timing?) && v.stage.expires <= w.clock
    && (v.stage.Deleting? ==> forall p :: !HoldsCode(w.store, t.channel, t.code, p))
  }

  ghost predicate SameTasks(w: World, u: World, channel: string) {
    && (forall id | id in w.tasks && ChannelOf(w.tasks[id]) == channel ::
          id in u.tasks && (u.tasks[id] == w.tasks[id] || Lags(w, w.tasks[id], u.tasks[id])))
    && (forall id | id in u.tasks :: id in w.tasks && ChannelOf(w.tasks[id]) == channel)
  }

  /** Readings are past, and approvals hold peers of their own channel. */
  predicate Sane(w: World, t: Task) {
    match t
    case Checking(_, ph) => ph.Finding? || ph.Pruning? || ph.Counting? ==> ph.at <= w.clock
    case Approving(ch, _, st) => st.Deleting? || st.Timing? || st.Adding? ==> st.found.channel == ch
  }

  ghost predicate SaneTasks(w: World) {
    forall id | id in w.tasks :: Sane(w, w.tasks[id])
  }

  ghost predicate Sim(w: World, u: World, channel: string) {
    SameRows(w, u, channel) && SamePairs(w, u, channel) && SameTasks(w, u, channel) && SaneTasks(w)
  }

  // ---------------------------------------------------------------- other channels' steps

  /** A step that leaves the channel's tasks and pairs alone and drops only rows that are stale. */
  lemma OtherKeeps(w: World, w': World, u: World, channel: string)
    requires Sim(w, u, channel) && SaneTasks(w') && w'.clock == w.clock
    requires forall id | id in w'.tasks && ChannelOf(w'.tasks[id]) == channel ::
               id in w.tasks && w'.tasks[id] == w.tasks[id]
    requires forall id | id in w.tasks && ChannelOf(w.tasks[id]) == channel ::
               id in w'.tasks && w'.tasks[id] == w.tasks[id]
    requires forall p: Peer | p.channel == channel :: p in w.store.paired <==> p in w'.store.paired
    requires forall p | p in w'.store.requests && p.channel == channel ::
               p in w.store.requests && w'.store.requests[p] == w.store.requests[p]
    requires forall p | p in w.store.requests && p.channel == channel && p !in w'.store.requests ::
               Stale(w, channel, w.store.requests[p].expires)
    ensures Sim(w', u, channel)
  {
    assert forall e :: Stale(w, channel, e) ==> Stale(w', channel, e);
    assert SameRows(w', u, channel);
    forall id | id in w'.tasks && ChannelOf(w'.tasks[id]) == channel
      ensures id in u.tasks && (u.tasks[id] == w'.tasks[id] || Lags(w', w'.tasks[id], u.tasks[id]))
    {
      if Lags(w, w.tasks[id], u.tasks[id]) {
        forall p
          ensures HoldsCode(w'.store, channel, w.tasks[id].code, p) ==> HoldsCode(w.store, channel, w.tasks[id].code, p)
        {
        }
      }
    }
  }

  lemma SaneAdvance(c: Config, w: World, id: nat, drawn: string)
    requires SaneTasks(w) && id in w.tasks
    ensures SaneTasks(AdvanceTask(c, w, id, drawn))
  {
    var w' := AdvanceTask(c, w, id, drawn);
    forall k | k in w'.tasks
      ensures Sane(w', w'.tasks[k])
    {
      assert Sane(w, w.tasks[k]);
    }
  }

  lemma SaneNext(c: Config, w: World, ev: Event)
    requires SaneTasks(w) && Enabled(w, ev)
    ensures SaneTasks(Next(c, w, ev))
  {
    if ev.Advance? {
      SaneAdvance(c, w, ev.id, ev.drawn);
    } else {
      var w' := Next(c, w, ev);
      forall k | k in w'.tasks
        ensures Sane(w', w'.tasks[k])
      {
        assert k in w.tasks ==> Sane(w, w.tasks[k]);
      }
    }
  }

  lemma PrunedIsStale(w: World, id: nat, channel: string, q: Peer)
    requires SaneTasks(w) && id in w.tasks && w.tasks[id].Checking? && w.tasks[id].peer.channel != channel
    requires w.tasks[id].phase.Pruning? && Undisturbed(w, Advance(id, ""), channel)
    requires q in w.store.requests && q.channel == channel && w.store.requests[q].expires <= w.tasks[id].phase.at
    ensures Stale(w, channel, w.store.requests[q].expires)
  {
    assert Sane(w, w.tasks[id]);
    forall k | k in w.tasks && Reads(w.tasks[k], channel)
      ensures w.store.requests[q].expires <= Reading(w.tasks[k])
    {
      assert !Between(w.store, q, Reading(w.tasks[k]), w.tasks[id].phase.at);
    }
  }

  lemma OtherCheck(c: Config, w: World, u: World, id: nat, drawn: string, channel: string)
    requires Sim(w, u, channel) && id in w.tasks && w.tasks[id].Checking? && w.tasks[id].peer.channel != channel
    requires Undisturbed(w, Advance(id, drawn), channel)
    ensures Sim(AdvanceTask(c, w, id, drawn), u, channel)
  {
    var w' := AdvanceTask(c, w, id, drawn);
    SaneAdvance(c, w, id, drawn);
    forall p | p in w.store.requests && p.channel == channel && p !in w'.store.requests
      ensures Stale(w, channel, w.store.requests[p].expires)
    {
      PrunedIsStale(w, id, channel, p);
    }
    OtherKeeps(w, w', u, channel);
  }

  lemma OtherApproval(c: Config, w: World, u: World, id: nat, drawn: string, channel: string)
    requires Sim(w, u, channel) && id in w.tasks && w.tasks[id].Approving? && w.tasks[id].channel != channel
    ensures Sim(AdvanceTask(c, w, id, drawn), u, channel)
  {
    assert Sane(w, w.tasks[id]);
    SaneAdvance(c, w, id, drawn);
    OtherKeeps(w, AdvanceTask(c, w, id, drawn), u, channel);
  }

  /** Steps of other channels leave the channel's own run where it is. */
  lemma OtherStep(c: Config, w: World, u: World, ev: Event, channel: string)
    requires Sim(w, u, channel) && Enabled(w, ev) && !Concerns(w, ev, channel) && Undisturbed(w, ev, channel)
    ensures Sim(Next(c, w, ev), u, channel)
  {
    if ev.Advance? {
      if w.tasks[ev.id].Checking? {
        OtherCheck(c, w, u, ev.id, ev.drawn, channel);
      } else {
        OtherApproval(c, w, u, ev.id, ev.drawn, channel);
      }
    } else {
      SaneNext(c, w, ev);
      OtherKeeps(w, Next(c, w, ev), u, channel);
    }
  }

  // ---------------------------------------------------------------- the channel's own steps

  lemma SameLive(w: World, u: World, id: nat, channel: string)
    requires Sim(w, u, channel) && id in w.tasks && Reads(w.tasks[id], channel)
    ensures LivePeers(w.store, channel, Reading(w.tasks[id])) == LivePeers(u.store, channel, Reading(w.tasks[id]))
  {
  }

  /** A check of the channel sees the same in both worlds. */
  lemma CheckSeesSame(c: Config, w: World, u: World, id: nat, drawn: string, channel: string)
    requires Sim(w, u, channel) && id in w.tasks && w.tasks[id].Checking? && w.tasks[id].peer.channel == channel
    ensures id in u.tasks && u.tasks[id] == w.tasks[id]
    ensures var t := w.tasks[id];
            CheckStep(c, w, t.peer, t.phase, drawn).1 == CheckStep(c, u, t.peer, t.phase, drawn).1
  {
    if w.tasks[id].phase.Counting? {
      SameLive(w, u, id, channel);
    }
  }

  /** No step makes a check of the channel look back: readings are kept, or just taken. */
  lemma StaleStays(c: Config, w: World, id: nat, drawn: string, channel: string, e: int)
    requires id in w.tasks && Stale(w, channel, e)
    ensures Stale(AdvanceTask(c, w, id, drawn), channel, e)
  {
    var w' := AdvanceTask(c, w, id, drawn);
    forall k | k in w'.tasks && Reads(w'.tasks[k], channel)
      ensures e <= Reading(w'.tasks[k])
    {
      assert k != id ==> w'.tasks[k] == w.tasks[k];
      assert k == id && Reads(w.tasks[k], channel) ==> Reading(w'.tasks[k]) == Reading(w.tasks[k]);
    }
  }

  lemma PruneUnique(s: Store, now: int)
    requires UniqueCodes(s)
    ensures UniqueCodes(Prune(s, now))
  {
  }

  lemma DeleteUnique(s: Store, channel: string, code: string)
    requires UniqueCodes(s)
    ensures UniqueCodes(DeleteCode(s, channel, code))
  {
  }

  lemma CheckRows(c: Config, w: World, u: World, id: nat, drawn: string, channel: string)
    requires Sim(w, u, channel) && id in w.tasks && w.tasks[id].Checking? && w.tasks[id].peer.channel == channel
    requires id in u.tasks && u.tasks[id] == w.tasks[id]
    ensures SameRows(AdvanceTask(c, w, id, drawn), AdvanceTask(c, u, id, drawn), channel)
  {
    var w', u' := AdvanceTask(c, w, id, drawn), AdvanceTask(c, u, id, drawn);
    var t := w.tasks[id];
    if t.phase.Pruning? {
      PruneUnique(u.store, t.phase.at);
    } else if t.phase.Writing? {
      UpsertUnique(u.store, t.peer, Request(drawn, t.phase.at + c.ttl));
    }
    forall p | p in u'.store.requests && p.channel == channel && p !in w'.store.requests
      ensures Stale(w', channel, u'.store.requests[p].expires)
    {
      assert p in u.store.requests && p !in w.store.requests && u'.store.requests[p] == u.store.requests[p];
      StaleStays(c, w, id, drawn, channel, u.store.requests[p].expires);
    }
  }

  lemma CheckTasks(c: Config, w: World, u: World, id: nat, drawn: string, channel: string)
    requires Sim(w, u, channel) && id in w.tasks && w.tasks[id].Checking? && w.tasks[id].peer.channel == channel
    requires id in u.tasks && u.tasks[id] == w.tasks[id] && Undisturbed(w, Advance(id, drawn), channel)
    requires var t := w.tasks[id];
             CheckStep(c, w, t.peer, t.phase, drawn).1 == CheckStep(c, u, t.peer, t.phase, drawn).1
    ensures SameTasks(AdvanceTask(c, w, id, drawn), AdvanceTask(c, u, id, drawn), channel)
  {
    var w', u' := AdvanceTask(c, w, id, drawn), AdvanceTask(c, u, id, drawn);
    forall k | k in w'.tasks && ChannelOf(w'.tasks[k]) == channel && k != id
      ensures k in u'.tasks && (u'.tasks[k] == w'.tasks[k] || Lags(w', w'.tasks[k], u'.tasks[k]))
    {
      assert w'.tasks[k] == w.tasks[k] && u'.tasks[k] == u.tasks[k];
      if Lags(w, w.tasks[k], u.tasks[k]) && u.tasks[k].stage.Deleting? {
        assert ForCode(w.tasks[k], channel, w.tasks[k].code);
        forall p
          ensures !HoldsCode(w'.store, channel, w.tasks[k].code, p)
        {
          assert !HoldsCode(w.store, channel, w.tasks[k].code, p);
        }
      }
    }
  }

  lemma OwnCheck(c: Config, w: World, u: World, id: nat, drawn: string, channel: string)
    requires Sim(w, u, channel) && id in w.tasks && w.tasks[id].Checking? && w.tasks[id].peer.channel == channel
    requires Undisturbed(w, Advance(id, drawn), channel)
    ensures id in u.tasks && Sim(AdvanceTask(c, w, id, drawn), AdvanceTask(c, u, id, drawn), channel)
  {
    CheckSeesSame(c, w, u, id, drawn, channel);
    CheckRows(c, w, u, id, drawn, channel);
    CheckTasks(c, w, u, id, drawn, channel);
    SaneAdvance(c, w, id, drawn);
  }

  /** An approval finds the same row, or in `u` a stale one where `w` has none. */
  lemma SeekSeesSame(w: World, u: World, channel: string, code: string)
    requires Sim(w, u, channel)
    ensures var f, g := FindByCode(w.store, channel, code), FindByCode(u.store, channel, code);
            if f.Some? then g == f && u.store.requests[g.value] == w.store.requests[f.value]
            else g.Some? ==> u.store.requests[g.value].expires <= w.clock
  {
    var f, g := FindByCode(w.store, channel, code), FindByCode(u.store, channel, code);
    if f.Some? {
      assert HoldsCode(u.store, channel, code, f.value);
      assert g.Some? && HoldsCode(u.store, channel, code, g.value);
    } else if g.Some? {
      assert HoldsCode(u.store, channel, code, g.value) && !HoldsCode(w.store, channel, code, g.value);
    }
  }

  lemma ApprovalRows(c: Config, w: World, u: World, id: nat, drawn: string, channel: string)
    requires Sim(w, u, channel) && id in w.tasks && w.tasks[id].Approving? && w.tasks[id].channel == channel
    ensures id in u.tasks && SameRows(AdvanceTask(c, w, id, drawn), AdvanceTask(c, u, id, drawn), channel)
  {
    var w', u' := AdvanceTask(c, w, id, drawn), AdvanceTask(c, u, id, drawn);
    var t, v := w.tasks[id], u.tasks[id];
    DeleteUnique(u.store, channel, t.code);
    forall p | p in w'.store.requests && p.channel == channel
      ensures p in u'.store.requests && u'.store.requests[p] == w'.store.requests[p]
    {
      if v.stage.Deleting? && t != v {
        assert !HoldsCode(w.store, channel, t.code, p);
      }
    }
    forall p | p in u'.store.requests && p.channel == channel && p !in w'.store.requests
      ensures Stale(w', channel, u'.store.requests[p].expires)
    {
      assert p in u.store.requests && p !in w.store.requests && u'.store.requests[p] == u.store.requests[p];
      StaleStays(c, w, id, drawn, channel, u.store.requests[p].expires);
    }
  }

  lemma ApprovalFollows(c: Config, w: World, u: World, id: nat, drawn: string, channel: string)
    requires Sim(w, u, channel) && id in w.tasks && w.tasks[id].Approving? && w.tasks[id].channel == channel
    requires id in u.tasks
    ensures var w', u' := AdvanceTask(c, w, id, drawn), AdvanceTask(c, u, id, drawn);
            u'.tasks[id] == w'.tasks[id] || Lags(w', w'.tasks[id], u'.tasks[id])
    ensures SamePairs(AdvanceTask(c, w, id, drawn), AdvanceTask(c, u, id, drawn), channel)
  {
    SeekSeesSame(w, u, channel, w.tasks[id].code);
    assert Sane(w, w.tasks[id]);
  }

  lemma ApprovalTasks(c: Config, w: World, u: World, id: nat, drawn: string, channel: string)
    requires Sim(w, u, channel) && id in w.tasks && w.tasks[id].Approving? && w.tasks[id].channel == channel
    requires id in u.tasks
    ensures SameTasks(AdvanceTask(c, w, id, drawn), AdvanceTask(c, u, id, drawn), channel)
  {
    var w', u' := AdvanceTask(c, w, id, drawn), AdvanceTask(c, u, id, drawn);
    ApprovalFollows(c, w, u, id, drawn, channel);
    forall k | k in w'.tasks && ChannelOf(w'.tasks[k]) == channel && k != id
      ensures k in u'.tasks && (u'.tasks[k] == w'.tasks[k] || Lags(w', w'.tasks[k], u'.tasks[k]))
    {
      assert w'.tasks[k] == w.tasks[k] && u'.tasks[k] == u.tasks[k];
      if Lags(w, w.tasks[k], u.tasks[k]) && u.tasks[k].stage.Deleting? {
        forall p
          ensures !HoldsCode(w'.store, channel, w.tasks[k].code, p)
        {
          assert !HoldsCode(w.store, channel, w.tasks[k].code, p);
        }
      }
    }
  }

  lemma OwnApproval(c: Config, w: World, u: World, id: nat, drawn: string, channel: string)
    requires Sim(w, u, channel) && id in w.tasks && w.tasks[id].Approving? && w.tasks[id].channel == channel
    ensures id in u.tasks && Sim(AdvanceTask(c, w, id, drawn), AdvanceTask(c, u, id, drawn), channel)
  {
    ApprovalRows(c, w, u, id, drawn, channel);
    ApprovalTasks(c, w, u, id, drawn, channel);
    ApprovalFollows(c, w, u, id, drawn, channel);
    SaneAdvance(c, w, id, drawn);
  }

  lemma TickKeeps(c: Config, w: World, u: World, now: int, channel: string)
    requires Sim(w, u, channel) && w.clock <= now
    ensures Sim(Next(c, w, Tick(now)), Next(c, u, Tick(now)), channel)
  {
    var w' := Next(c, w, Tick(now));
    SaneNext(c, w, Tick(now));
    assert forall e :: Stale(w, channel, e) ==> Stale(w', channel, e);
  }

  /** A task that has read nothing yet joins. */
  lemma JoinKeeps(c: Config, w: World, u: World, ev: Event, channel: string)
    requires Sim(w, u, channel) && Enabled(w, ev) && Concerns(w, ev, channel)
    requires ev.StartCheck? || ev.StartApproval?
    ensures Enabled(u, ev) && Sim(Next(c, w, ev), Next(c, u, ev), channel)
  {
    var w' := Next(c, w, ev);
    SaneNext(c, w, ev);
    assert forall e :: Stale(w, channel, e) ==> Stale(w', channel, e);
  }

  lemma RevokeKeeps(c: Config, w: World, u: World, p: Peer, channel: string)
    requires Sim(w, u, channel)
    ensures Sim(Next(c, w, RevokePeer(p)), Next(c, u, RevokePeer(p)), channel)
  {
    var w' := Next(c, w, RevokePeer(p));
    SaneNext(c, w, RevokePeer(p));
    assert forall e :: Stale(w, channel, e) ==> Stale(w', channel, e);
    assert forall code, q :: HoldsCode(w'.store, channel, code, q) ==> HoldsCode(w.store, channel, code, q);
    assert forall id | id in w.tasks && id in u.tasks && w.tasks[id].Approving? && w.tasks[id].channel == channel ::
        Lags(w, w.tasks[id], u.tasks[id]) ==> Lags(w', w.tasks[id], u.tasks[id]);
  }

  /** The channel's own steps proceed alike in both worlds. */
  lemma OwnStep(c: Config, w: World, u: World, ev: Event, channel: string)
    requires Sim(w, u, channel) && Enabled(w, ev) && Concerns(w, ev, channel) && Undisturbed(w, ev, channel)
    ensures Enabled(u, ev) && Sim(Next(c, w, ev), Next(c, u, ev), channel)
  {
    match ev {
      case StartCheck(_, _) => JoinKeeps(c, w, u, ev, channel);
      case StartApproval(_, _, _) => JoinKeeps(c, w, u, ev, channel);
      case Advance(id, drawn) =>
        if w.tasks[id].Checking? {
          OwnCheck(c, w, u, id, drawn, channel);
        } else {
          OwnApproval(c, w, u, id, drawn, channel);
        }
      case RevokePeer(p) => RevokeKeeps(c, w, u, p, channel);
      case Tick(now) => TickKeeps(c, w, u, now, channel);
    }
  }

  // ---------------------------------------------------------------- whole runs

  /** The events of a run that concern the channel. */
  function Kept(ws: seq<World>, evs: seq<Event>, n: nat, channel: string): seq<Event>
    requires n <= |evs| && n <= |ws|
  {
    if n == 0 then []
    else
      Kept(ws, evs, n - 1, channel) + if Concerns(ws[n - 1], evs[n - 1], channel) then [evs[n - 1]] else []
  }

  lemma RunsSnoc(c: Config, us: seq<World>, evs: seq<Event>, ev: Event)
    requires Runs(c, us, evs) && Enabled(us[|evs|], ev)
    ensures Runs(c, us + [Next(c, us[|evs|], ev)], evs + [ev])
  {
    var vs, es := us + [Next(c, us[|evs|], ev)], evs + [ev];
    forall k | 0 <= k < |es|
      ensures Enabled(vs[k], es[k]) && vs[k + 1] == Next(c, vs[k], es[k])
    {
      assert k < |evs| ==> vs[k] == us[k] && vs[k + 1] == us[k + 1] && es[k] == evs[k];
    }
  }

  lemma {:induction false} OwnRun(
      c: Config, ws: seq<World>, evs: seq<Event>, n: nat, channel: string) returns (us: seq<World>)
    requires Runs(c, ws, evs) && n <= |evs| && forall k | 0 <= k < n :: Undisturbed(ws[k], evs[k], channel)
    ensures Runs(c, us, Kept(ws, evs, n, channel)) && Sim(ws[n], us[|us| - 1], channel)
  {
    if n == 0 {
      us := [ws[0]];
      assert Kept(ws, evs, 0, channel) == [] && Runs(c, us, []);
    } else {
      us := OwnRun(c, ws, evs, n - 1, channel);
      var w, u, ev := ws[n - 1], us[|us| - 1], evs[n - 1];
      if Concerns(w, ev, channel) {
        OwnStep(c, w, u, ev, channel);
        RunsSnoc(c, us, Kept(ws, evs, n - 1, channel), ev);
        us := us + [Next(c, u, ev)];
      } else {
        OtherStep(c, w, u, ev, channel);
        assert Kept(ws, evs, n, channel) == Kept(ws, evs, n - 1, channel) + [];
      }
    }
  }

  /** Checks of the channel are where they are with the same answers, approvals that concluded in the
      channel's own run concluded alike, and the same peers of the channel are paired. */
  ghost predicate AnswerAlike(w: World, u: World, channel: string) {
    && (forall id | id in w.tasks && w.tasks[id].Checking? && w.tasks[id].peer.channel == channel ::
          id in u.tasks && u.tasks[id] == w.tasks[id])
    && (forall id | id in w.tasks && w.tasks[id].Approving? && w.tasks[id].channel == channel ::
          && id in u.tasks && u.tasks[id].Approving?
          && (u.tasks[id].stage.Concluded? || w.tasks[id].stage != Concluded(None) ==> u.tasks[id] == w.tasks[id]))
    && (forall p: Peer | p.channel == channel :: p in w.store.paired <==> p in u.store.paired)
  }

  /** Under every interleaving in which no check of the channel sees another channel's prune, and no code
      is drawn that an approval already named, the channel's calls end as in the run of its own events. */
  lemma ChannelsInterleaveFreely(c: Config, ws: seq<World>, evs: seq<Event>, n: nat, channel: string)
    requires Runs(c, ws, evs) && n <= |evs| && forall k | 0 <= k < n :: Undisturbed(ws[k], evs[k], channel)
    ensures exists us: seq<World> ::
              Runs(c, us, Kept(ws, evs, n, channel)) && AnswerAlike(ws[n], us[|us| - 1], channel)
  {
    var us := OwnRun(c, ws, evs, n, channel);
    assert AnswerAlike(ws[n], us[|us| - 1], channel);
  }
}
