/** Any number of agent instances, each with its own configuration, that resume each other's states: an
    approval may be decided in another process than the one that asked for it. */
module AgentFleet {
  import opened Options
  import opened Transcript
  import opened RunStates
  import opened Completion
  import opened RunLoop
  import opened RunSafety
  import opened RunAccepted
  import opened AgentRuns
  import opened AgentBooks
  import opened AgentSafety
  import opened AgentAccepted

  /** Instance `i` takes action `x`. */
  datatype Event = Event(i: nat, x: Action)

  predicate Possible(cs: seq<Config>, fleet: seq<Agent>, e: Event) {
    |fleet| == |cs| && e.i < |cs| && Can(cs[e.i], fleet[e.i], e.x)
  }

  function After(cs: seq<Config>, fleet: seq<Agent>, e: Event): seq<Agent>
    requires Possible(cs, fleet, e)
  {
    fleet[e.i := Apply(cs[e.i], fleet[e.i], e.x)]
  }

  /** The fleets a run passes through, from instances that have done nothing; actions of different
      instances interleave in any order. */
  ghost predicate FleetRun(cs: seq<Config>, es: seq<Event>, fleets: seq<seq<Agent>>) {
    && |fleets| == |es| + 1 && |fleets[0]| == |cs| && (forall i | 0 <= i < |cs| :: fleets[0][i] == INIT)
    && forall n | 0 <= n < |es| :: Possible(cs, fleets[n], es[n]) && fleets[n + 1] == After(cs, fleets[n], es[n])
  }

  /** Some instance has handed the state out. */
  ghost predicate Shipped(fleet: seq<Agent>, st: RunState) {
    exists j | 0 <= j < |fleet| :: st in fleet[j].delivered
  }

  ghost predicate ResumesShipped(cs: seq<Config>, fleet: seq<Agent>, e: Event)
    requires Possible(cs, fleet, e)
  {
    e.x.Start? && fleet[e.i].tasks[e.x.t].args.input.Of? ==> Shipped(fleet, fleet[e.i].tasks[e.x.t].args.input.st)
  }

  /** A run in which every resumed state was handed out before, by whichever instance. */
  ghost predicate ChainedRun(cs: seq<Config>, es: seq<Event>, fleets: seq<seq<Agent>>) {
    FleetRun(cs, es, fleets) && forall n | 0 <= n < |es| :: ResumesShipped(cs, fleets[n], es[n])
  }

  // ---------------------------------------------------------------- books

  ghost predicate FleetKept(k: Promise, fleet: seq<Agent>) {
    forall i | 0 <= i < |fleet| :: AgentKept(k, fleet[i])
  }

  lemma EventKept(k: Promise, cs: seq<Config>, fleet: seq<Agent>, e: Event)
    requires Possible(cs, fleet, e) && ResumesShipped(cs, fleet, e) && FleetKept(k, fleet) && (k.ledger ==> k.approvals)
    ensures FleetKept(k, After(cs, fleet, e))
  {
    var a := fleet[e.i];
    assert ResumesKept(k, cs[e.i], a, e.x) by {
      if e.x.Start? && a.tasks[e.x.t].args.input.Of? {
        var st := a.tasks[e.x.t].args.input.st;
        var j :| 0 <= j < |fleet| && st in fleet[j].delivered;
        assert AgentKept(k, fleet[j]);
      }
    }
    ApplyKept(k, cs[e.i], a, e.x);
  }

  lemma {:induction false} ChainKept(k: Promise, cs: seq<Config>, es: seq<Event>, fleets: seq<seq<Agent>>, n: nat)
    requires ChainedRun(cs, es, fleets) && n < |fleets| && (k.ledger ==> k.approvals)
    ensures |fleets[n]| == |cs| && FleetKept(k, fleets[n])
  {
    if n > 0 {
      ChainKept(k, cs, es, fleets, n - 1);
      EventKept(k, cs, fleets[n - 1], es[n - 1]);
    }
  }

  /** Over every chain of suspends and resumes across instances, no instance asks a provider while an
      approval is unresolved, or from a failed or suspended run. */
  lemma ChainWaitsForApprovals(
      cs: seq<Config>, es: seq<Event>, fleets: seq<seq<Agent>>, n: nat, i: nat, t: nat, q: Request)
    requires ChainedRun(cs, es, fleets) && n < |fleets| && i < |fleets[n]|
    requires t < |fleets[n][i].tasks| && MadeRequest(fleets[n][i].tasks[t], q)
    ensures q.st.pending == [] && !q.st.status.Failed? && !q.st.status.AwaitingApproval?
  {
    ChainKept(APPROVALS, cs, es, fleets, n);
    assert AgentKept(APPROVALS, fleets[n][i]);
    assert TaskKept(APPROVALS, fleets[n][i].tasks[t]);
    CalmRequest(APPROVALS, fleets[n][i].tasks[t], q);
  }

  /** And every state handed out has a strictly increasing journal, a per-model ledger that sums to its
      total, and, unless it failed with nothing left to decide, a journal that with its folds does so. */
  lemma ChainBooks(cs: seq<Config>, es: seq<Event>, fleets: seq<seq<Agent>>, n: nat, i: nat, st: RunState)
    requires ChainedRun(cs, es, fleets) && n < |fleets| && i < |fleets[n]| && st in fleets[n][i].delivered
    ensures Increasing(st.steps) && st.usage == SumModels(st.byModel)
    ensures Dead(st) || st.usage == Add(SumSteps(st.steps), st.folded)
  {
    ChainKept(ALL, cs, es, fleets, n);
    assert AgentKept(ALL, fleets[n][i]);
    assert Keeps(ALL, st);
  }

  // ---------------------------------------------------------------- transcripts

  ghost predicate FleetSafe(fleet: seq<Agent>) {
    forall i | 0 <= i < |fleet| :: AgentSafe(fleet[i])
  }

  lemma EventSafe(cs: seq<Config>, fleet: seq<Agent>, e: Event)
    requires Possible(cs, fleet, e) && ResumesShipped(cs, fleet, e) && FleetSafe(fleet)
    requires GoodConfig(cs[e.i]) && TidyAction(cs[e.i], fleet[e.i], e.x)
    ensures FleetSafe(After(cs, fleet, e))
  {
    var a := fleet[e.i];
    assert CleanAction(cs[e.i], a, e.x) by {
      if e.x.Start? && a.tasks[e.x.t].args.input.Of? {
        var st := a.tasks[e.x.t].args.input.st;
        var j :| 0 <= j < |fleet| && st in fleet[j].delivered;
        assert AgentSafe(fleet[j]);
      }
    }
    ApplySafe(cs[e.i], a, e.x);
  }

  ghost predicate TidyRun(cs: seq<Config>, es: seq<Event>, fleets: seq<seq<Agent>>) {
    && ChainedRun(cs, es, fleets) && (forall i | 0 <= i < |cs| :: GoodConfig(cs[i]))
    && forall n | 0 <= n < |es| :: TidyAction(cs[es[n].i], fleets[n][es[n].i], es[n].x)
  }

  lemma {:induction false} ChainSafe(cs: seq<Config>, es: seq<Event>, fleets: seq<seq<Agent>>, n: nat)
    requires TidyRun(cs, es, fleets) && n < |fleets|
    ensures |fleets[n]| == |cs| && FleetSafe(fleets[n])
  {
    if n > 0 {
      ChainSafe(cs, es, fleets, n - 1);
      EventSafe(cs, fleets[n - 1], es[n - 1]);
    }
  }

  /** Over every tidy chain each provider request of each instance carries a transcript that meets the
      documented rule, with no sub-run parked. */
  lemma ChainWellFormed(
      cs: seq<Config>, es: seq<Event>, fleets: seq<seq<Agent>>, n: nat, i: nat, t: nat, q: Request)
    requires TidyRun(cs, es, fleets) && n < |fleets| && i < |fleets[n]|
    requires t < |fleets[n][i].tasks| && MadeRequest(fleets[n][i].tasks[t], q)
    ensures Documented(q.messages) && q.st.parks == []
  {
    ChainSafe(cs, es, fleets, n);
    assert AgentSafe(fleets[n][i]);
    assert TaskSafe(fleets[n][i].tasks[t]);
    assert GoodRequest(q);
  }

  // ---------------------------------------------------------------- what the two-set pass decides

  ghost predicate FleetPasses(fleet: seq<Agent>) {
    forall i | 0 <= i < |fleet| :: AgentPasses(fleet[i]) && AgentKept(APPROVALS, fleet[i])
  }

  lemma EventPasses(cs: seq<Config>, fleet: seq<Agent>, e: Event)
    requires Possible(cs, fleet, e) && ResumesShipped(cs, fleet, e) && FleetPasses(fleet)
    requires GoodConfig(cs[e.i]) && EvenAction(cs[e.i], fleet[e.i], e.x)
    ensures FleetPasses(After(cs, fleet, e))
  {
    var a := fleet[e.i];
    assert FairAction(cs[e.i], a, e.x) by {
      if e.x.Start? && a.tasks[e.x.t].args.input.Of? {
        var st := a.tasks[e.x.t].args.input.st;
        var j :| 0 <= j < |fleet| && st in fleet[j].delivered;
        assert AgentPasses(fleet[j]) && AgentKept(APPROVALS, fleet[j]);
        assert Keeps(APPROVALS, st);
      }
    }
    ApplyPasses(cs[e.i], a, e.x);
    ApplyKept(APPROVALS, cs[e.i], a, e.x);
  }

  ghost predicate EvenRun(cs: seq<Config>, es: seq<Event>, fleets: seq<seq<Agent>>) {
    && ChainedRun(cs, es, fleets) && (forall i | 0 <= i < |cs| :: GoodConfig(cs[i]))
    && forall n | 0 <= n < |es| :: EvenAction(cs[es[n].i], fleets[n][es[n].i], es[n].x)
  }

  lemma {:induction false} ChainPasses(cs: seq<Config>, es: seq<Event>, fleets: seq<seq<Agent>>, n: nat)
    requires EvenRun(cs, es, fleets) && n < |fleets|
    ensures |fleets[n]| == |cs| && FleetPasses(fleets[n])
  {
    if n > 0 {
      ChainPasses(cs, es, fleets, n - 1);
      EventPasses(cs, fleets[n - 1], es[n - 1]);
    } else {
      InitPasses();
    }
  }

  lemma InitPasses()
    ensures AgentPasses(INIT) && AgentKept(APPROVALS, INIT)
  {
    PlainAccepted([]);
  }

  /** Over every even chain each provider request of each instance is accepted by the two-set pass. */
  lemma ChainAccepted(cs: seq<Config>, es: seq<Event>, fleets: seq<seq<Agent>>, n: nat, i: nat, t: nat, q: Request)
    requires EvenRun(cs, es, fleets) && n < |fleets| && i < |fleets[n]|
    requires t < |fleets[n][i].tasks| && MadeRequest(fleets[n][i].tasks[t], q)
    ensures Accepted(q.messages)
  {
    ChainPasses(cs, es, fleets, n);
    assert AgentPasses(fleets[n][i]);
    assert TaskPasses(fleets[n][i].tasks[t]);
    AcceptedRequest(fleets[n][i].tasks[t], q);
  }
}
