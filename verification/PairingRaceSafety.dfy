/** What interleaving keeps and what it breaks: calls run alone behave as the sequential controller, and
    approval is one-time only while approvals of one code do not overlap. */
module PairingRaceSafety {
  import opened Options
  import opened Pairing
  import opened PairingRace

  // ---------------------------------------------------------------- calls run alone

  ghost function Advances(c: Config, w: World, id: nat, drawn: string, n: nat): (r: World)
    requires id in w.tasks
    ensures id in r.tasks
    decreases n
  {
    if n == 0 then w else Advances(c, AdvanceTask(c, w, id, drawn), id, drawn, n - 1)
  }

  /** A check whose steps nothing interrupts decides and stores what the sequential check does. */
  lemma CheckAlone(c: Config, w: World, id: nat, p: Peer, drawn: string)
    requires id in w.tasks && w.tasks[id] == Checking(p, Asking)
    ensures var r := Advances(c, w, id, drawn, 6);
            var (s, d) := CheckPairing(c, w.store, p, w.clock, drawn);
            r.store == s && r.clock == w.clock && r.tasks == w.tasks[id := Checking(p, Answered(d))]
  {
    var w1 := AdvanceTask(c, w, id, drawn);
    var w2 := AdvanceTask(c, w1, id, drawn);
    var w3 := AdvanceTask(c, w2, id, drawn);
    assert Advances(c, w, id, drawn, 6) == Advances(c, w1, id, drawn, 5);
    assert Advances(c, w1, id, drawn, 5) == Advances(c, w2, id, drawn, 4);
    assert Advances(c, w2, id, drawn, 4) == Advances(c, w3, id, drawn, 3);
    if p in w.store.paired {
      AnsweredStays(c, w1, id, drawn, 5);
    } else if p in w.store.requests && w.store.requests[p].expires > w.clock {
      AnsweredStays(c, w3, id, drawn, 3);
    } else {
      assert w3 == w.(tasks := w.tasks[id := Checking(p, Pruning(w.clock))]);
      IssueAlone(c, w3, id, p, w.clock, drawn);
    }
  }

  lemma IssueAlone(c: Config, w: World, id: nat, p: Peer, at: int, drawn: string)
    requires id in w.tasks && w.tasks[id] == Checking(p, Pruning(at))
    ensures var r := Advances(c, w, id, drawn, 3);
            var (s, d) := Issue(c, w.store, p, at, drawn);
            r.store == s && r.clock == w.clock && r.tasks == w.tasks[id := Checking(p, Answered(d))]
  {
    var w1 := AdvanceTask(c, w, id, drawn);
    var w2 := AdvanceTask(c, w1, id, drawn);
    assert Advances(c, w, id, drawn, 3) == Advances(c, w1, id, drawn, 2);
    assert Advances(c, w1, id, drawn, 2) == Advances(c, w2, id, drawn, 1);
    if |LivePeers(w1.store, p.channel, at)| >= c.maxPending {
      AnsweredStays(c, w2, id, drawn, 1);
    } else {
      assert w2.tasks == w.tasks[id := Checking(p, Writing(at))];
      AnsweredStays(c, AdvanceTask(c, w2, id, drawn), id, drawn, 0);
    }
  }

  lemma {:induction false} AnsweredStays(c: Config, w: World, id: nat, drawn: string, n: nat)
    requires id in w.tasks && w.tasks[id].Checking? && w.tasks[id].phase.Answered?
    ensures Advances(c, w, id, drawn, n) == w
  {
    assert w.tasks[id := w.tasks[id]] == w.tasks;
    if n > 0 {
      AnsweredStays(c, w, id, drawn, n - 1);
    }
  }

  lemma {:induction false} ConcludedStays(c: Config, w: World, id: nat, drawn: string, n: nat)
    requires id in w.tasks && w.tasks[id].Approving? && w.tasks[id].stage.Concluded?
    ensures Advances(c, w, id, drawn, n) == w
  {
    assert w.tasks[id := w.tasks[id]] == w.tasks;
    if n > 0 {
      ConcludedStays(c, w, id, drawn, n - 1);
    }
  }

  /** An approval whose steps nothing interrupts is the sequential approval. */
  lemma ApprovalAlone(c: Config, w: World, id: nat, channel: string, code: string, drawn: string)
    requires id in w.tasks && w.tasks[id] == Approving(channel, code, Seeking)
    ensures var r := Advances(c, w, id, drawn, 4);
            var (s, g) := Approve(w.store, channel, code, w.clock);
            r.store == s && r.clock == w.clock && r.tasks == w.tasks[id := Approving(channel, code, Concluded(g))]
  {
    var w1 := AdvanceTask(c, w, id, drawn);
    assert Advances(c, w, id, drawn, 4) == Advances(c, w1, id, drawn, 3);
    if FindByCode(w.store, channel, code).None? {
      ConcludedStays(c, w1, id, drawn, 3);
    } else {
      var q := FindByCode(w.store, channel, code).value;
      var w2 := AdvanceTask(c, w1, id, drawn);
      var w3 := AdvanceTask(c, w2, id, drawn);
      assert Advances(c, w1, id, drawn, 3) == Advances(c, w2, id, drawn, 2);
      assert Advances(c, w2, id, drawn, 2) == Advances(c, w3, id, drawn, 1);
      assert w2.tasks == w.tasks[id := Approving(channel, code, Timing(q, w.store.requests[q].expires))];
      if w.store.requests[q].expires <= w.clock {
        ConcludedStays(c, w3, id, drawn, 1);
      } else {
        assert w3.tasks == w.tasks[id := Approving(channel, code, Adding(q))];
        ConcludedStays(c, AdvanceTask(c, w3, id, drawn), id, drawn, 0);
      }
    }
  }

  // ---------------------------------------------------------------- one-time approval

  predicate ForCode(t: Task, channel: string, code: string) {
    t.Approving? && t.channel == channel && t.code == code
  }

  predicate Open(t: Task) {
    t.Approving? && !t.stage.Concluded?
  }

  /** The event starts an approval of the code while another one is in flight. */
  ghost predicate Overlaps(w: World, ev: Event, channel: string, code: string) {
    ev.StartApproval? && ev.channel == channel && ev.code == code &&
    exists id | id in w.tasks :: ForCode(w.tasks[id], channel, code) && Open(w.tasks[id])
  }

  ghost predicate IssuedOn(w: World, channel: string, code: string) {
    exists p: Peer :: p.channel == channel && (p, code) in w.issued
  }

  /** The event issues the code although it was issued on the channel before. */
  ghost predicate Reissues(w: World, ev: Event, channel: string, code: string) {
    ev.Advance? && ev.drawn == code && ev.id in w.tasks && IsWriter(w.tasks[ev.id], channel) &&
    IssuedOn(w, channel, code)
  }

  predicate Holding(t: Task) {
    t.Approving? && (t.stage.Deleting? || t.stage.Timing? || t.stage.Adding?)
  }

  predicate Redeems(t: Task) {
    t.Approving? && (t.stage.Timing? || t.stage.Adding? || (t.stage.Concluded? && t.stage.g.Some?))
  }

  /** Once an approval is past its deletion the code is spent: issued before, held by no row; and no two
      open approvals of it exist. */
  ghost predicate Spent(w: World, channel: string, code: string) {
    && (forall p | p in w.store.requests && p.channel == channel && w.store.requests[p].code == code ::
          (p, code) in w.issued)
    && (forall id | id in w.tasks && ForCode(w.tasks[id], channel, code) ::
          Holding(w.tasks[id]) || Redeems(w.tasks[id]) ==> IssuedOn(w, channel, code))
    && (forall id, q | id in w.tasks && ForCode(w.tasks[id], channel, code) && Redeems(w.tasks[id]) &&
          q in w.store.requests :: q.channel != channel || w.store.requests[q].code != code)
    && (forall i, j | i in w.tasks && j in w.tasks && ForCode(w.tasks[i], channel, code) &&
          ForCode(w.tasks[j], channel, code) && Open(w.tasks[i]) && Open(w.tasks[j]) :: i == j)
    && (forall i, j | i in w.tasks && j in w.tasks && ForCode(w.tasks[i], channel, code) &&
          ForCode(w.tasks[j], channel, code) && Redeems(w.tasks[i]) ::
          Holding(w.tasks[j]) || Redeems(w.tasks[j]) ==> i == j)
  }

  lemma CheckKeepsSpent(c: Config, w: World, id: nat, drawn: string, channel: string, code: string)
    requires Spent(w, channel, code) && id in w.tasks && w.tasks[id].Checking?
    requires !Reissues(w, Advance(id, drawn), channel, code)
    ensures Spent(AdvanceTask(c, w, id, drawn), channel, code)
  {
    if w.tasks[id].phase.Writing? {
      WriteKeepsSpent(c, w, id, drawn, channel, code);
    } else {
      OtherKeepsSpent(w, AdvanceTask(c, w, id, drawn), id, channel, code);
    }
  }

  lemma WriteKeepsSpent(c: Config, w: World, id: nat, drawn: string, channel: string, code: string)
    requires Spent(w, channel, code) && id in w.tasks && w.tasks[id].Checking? && w.tasks[id].phase.Writing?
    requires !Reissues(w, Advance(id, drawn), channel, code)
    ensures Spent(AdvanceTask(c, w, id, drawn), channel, code)
  {
    var w' := AdvanceTask(c, w, id, drawn);
    if IssuedOn(w, channel, code) {
      var p: Peer :| p.channel == channel && (p, code) in w.issued;
      assert (p, code) in w'.issued;
    }
  }

  lemma SeekKeepsSpent(c: Config, w: World, id: nat, drawn: string, channel: string, code: string)
    requires Spent(w, channel, code) && id in w.tasks && w.tasks[id].Approving? && w.tasks[id].stage.Seeking?
    ensures Spent(AdvanceTask(c, w, id, drawn), channel, code)
  {
    var t := w.tasks[id];
    if ForCode(t, channel, code) {
      if FindByCode(w.store, channel, code).Some? {
        FoundKeepsSpent(c, w, id, drawn, channel, code, FindByCode(w.store, channel, code).value);
      }
    } else {
      OtherKeepsSpent(w, AdvanceTask(c, w, id, drawn), id, channel, code);
    }
  }

  lemma FoundKeepsSpent(c: Config, w: World, id: nat, drawn: string, channel: string, code: string, q: Peer)
    requires Spent(w, channel, code) && id in w.tasks && w.tasks[id] == Approving(channel, code, Seeking)
    requires FindByCode(w.store, channel, code) == Some(q)
    ensures Spent(AdvanceTask(c, w, id, drawn), channel, code)
  {
    assert HoldsCode(w.store, channel, code, q);
    assert IssuedOn(w, channel, code);
  }

  /** A task of another code moves without writing to the store. */
  lemma OtherKeepsSpent(w: World, w': World, id: nat, channel: string, code: string)
    requires Spent(w, channel, code) && w'.issued == w.issued
    requires forall p | p in w'.store.requests :: p in w.store.requests && w'.store.requests[p] == w.store.requests[p]
    requires id in w'.tasks && !ForCode(w'.tasks[id], channel, code)
    requires forall k | k in w'.tasks && k != id :: k in w.tasks && w'.tasks[k] == w.tasks[k]
    ensures Spent(w', channel, code)
  {
    if IssuedOn(w, channel, code) {
      var p: Peer :| p.channel == channel && (p, code) in w.issued;
      assert (p, code) in w'.issued;
    }
  }

  lemma DeleteKeepsSpent(c: Config, w: World, id: nat, drawn: string, channel: string, code: string)
    requires Spent(w, channel, code) && id in w.tasks && w.tasks[id].Approving? && w.tasks[id].stage.Deleting?
    ensures Spent(AdvanceTask(c, w, id, drawn), channel, code)
  {
  }

  lemma LateKeepsSpent(c: Config, w: World, id: nat, drawn: string, channel: string, code: string)
    requires Spent(w, channel, code) && id in w.tasks && w.tasks[id].Approving?
    requires w.tasks[id].stage.Timing? || w.tasks[id].stage.Adding? || w.tasks[id].stage.Concluded?
    ensures Spent(AdvanceTask(c, w, id, drawn), channel, code)
  {
  }

  lemma ApprovalKeepsSpent(c: Config, w: World, id: nat, drawn: string, channel: string, code: string)
    requires Spent(w, channel, code) && id in w.tasks && w.tasks[id].Approving?
    ensures Spent(AdvanceTask(c, w, id, drawn), channel, code)
  {
    match w.tasks[id].stage {
      case Seeking => SeekKeepsSpent(c, w, id, drawn, channel, code);
      case Deleting(_, _) => DeleteKeepsSpent(c, w, id, drawn, channel, code);
      case _ => LateKeepsSpent(c, w, id, drawn, channel, code);
    }
  }

  lemma NextKeepsSpent(c: Config, w: World, ev: Event, channel: string, code: string)
    requires Spent(w, channel, code) && Enabled(w, ev)
    requires !Overlaps(w, ev, channel, code) && !Reissues(w, ev, channel, code)
    ensures Spent(Next(c, w, ev), channel, code)
  {
    if ev.Advance? {
      if w.tasks[ev.id].Checking? {
        CheckKeepsSpent(c, w, ev.id, ev.drawn, channel, code);
      } else {
        ApprovalKeepsSpent(c, w, ev.id, ev.drawn, channel, code);
      }
    }
  }

  lemma {:induction false} SpentThroughout(
      c: Config, ws: seq<World>, evs: seq<Event>, n: nat, channel: string, code: string)
    requires Runs(c, ws, evs) && n <= |evs|
    requires forall k | 0 <= k < n :: !Overlaps(ws[k], evs[k], channel, code) && !Reissues(ws[k], evs[k], channel, code)
    ensures Spent(ws[n], channel, code)
  {
    if n > 0 {
      SpentThroughout(c, ws, evs, n - 1, channel, code);
      NextKeepsSpent(c, ws[n - 1], evs[n - 1], channel, code);
    }
  }

  ghost predicate GrantedBy(w: World, id: nat, channel: string, code: string) {
    id in w.tasks && ForCode(w.tasks[id], channel, code) && w.tasks[id].stage.Concluded? && w.tasks[id].stage.g.Some?
  }

  /** However everything else interleaves, a code granted by two approvals was approved twice at once,
      or issued twice on its channel. */
  lemma OneTimeApproval(
      c: Config, ws: seq<World>, evs: seq<Event>, n: nat, i: nat, j: nat, channel: string, code: string)
    requires Runs(c, ws, evs) && n <= |evs| && i != j
    requires GrantedBy(ws[n], i, channel, code) && GrantedBy(ws[n], j, channel, code)
    ensures exists k: nat :: k < n && (Overlaps(ws[k], evs[k], channel, code) || Reissues(ws[k], evs[k], channel, code))
  {
    if forall k | 0 <= k < n ::
        !Overlaps(ws[k], evs[k], channel, code) && !Reissues(ws[k], evs[k], channel, code)
    {
      SpentThroughout(c, ws, evs, n, channel, code);
      assert false;
    }
  }

  /** The steps of one approval after its lookup, while the code's row may or may not still exist. */
  lemma FinishApproval(c: Config, w: World, id: nat, channel: string, code: string, q: Peer, e: int)
    requires id in w.tasks && w.tasks[id] == Approving(channel, code, Deleting(q, e)) && e > w.clock
    ensures var r := Advances(c, w, id, "", 3);
            && r.tasks == w.tasks[id := Approving(channel, code, Concluded(Some(q)))]
            && r.store.paired == w.store.paired + {q} && r.clock == w.clock && r.issued == w.issued
  {
    var w1 := AdvanceTask(c, w, id, "");
    var w2 := AdvanceTask(c, w1, id, "");
    var w3 := AdvanceTask(c, w2, id, "");
    assert Advances(c, w, id, "", 3) == Advances(c, w1, id, "", 2);
    assert Advances(c, w1, id, "", 2) == Advances(c, w2, id, "", 1);
    ConcludedStays(c, w3, id, "", 0);
  }

  /** Overlapping approvals of any live code both grant it, and a revocation between their ends is
      undone although no code was issued after it. */
  lemma OverlapRegrants(c: Config, w: World, i: nat, j: nat, channel: string, code: string)
    requires i !in w.tasks && j !in w.tasks && i != j
    requires FindByCode(w.store, channel, code).Some?
    requires w.store.requests[FindByCode(w.store, channel, code).value].expires > w.clock
    ensures var q := FindByCode(w.store, channel, code).value;
            var w1 := Next(c, Next(c, w, StartApproval(i, channel, code)), StartApproval(j, channel, code));
            var w2 := Next(c, Next(c, w1, Advance(i, "")), Advance(j, ""));
            var w3 := Advances(c, w2, i, "", 3);
            var w4 := Next(c, w3, RevokePeer(q));
            && w3.tasks[i].stage == Concluded(Some(q)) && q !in w4.store.paired && j in w4.tasks
            && var w5 := Advances(c, w4, j, "", 3);
               q in w5.store.paired && w5.tasks[j].stage == Concluded(Some(q)) && w5.issued == w.issued
  {
    var q := FindByCode(w.store, channel, code).value;
    var e := w.store.requests[q].expires;
    var w1 := Next(c, Next(c, w, StartApproval(i, channel, code)), StartApproval(j, channel, code));
    var w2 := Next(c, Next(c, w1, Advance(i, "")), Advance(j, ""));
    assert w2.tasks[i] == Approving(channel, code, Deleting(q, e));
    assert w2.tasks[j] == Approving(channel, code, Deleting(q, e));
    FinishApproval(c, w2, i, channel, code, q, e);
    var w3 := Advances(c, w2, i, "", 3);
    var w4 := Next(c, w3, RevokePeer(q));
    FinishApproval(c, w4, j, channel, code, q, e);
  }
}
