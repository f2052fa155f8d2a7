/** Steering and aborts issued between runs belong to no run, and a start that is rejected is no run:
    leaving them out of an execution changes nothing any other run or caller can see. */
module AgentIdle {
  import opened Options
  import opened Transcript
  import opened RunStates
  import opened Resume
  import opened RunLoop
  import opened AgentRuns

  /** The shared variables without what an idle agent's signals leave in them. */
  function Quiet(sh: Shared): Shared {
    if sh.inFlight then sh else sh.(steer := [], abortPolicy := None, aborted := false)
  }

  /** Same runs (with their buffers, states, events and requests), same deliveries, same shared
      variables up to idle signals. */
  ghost predicate Alike(a: Agent, b: Agent) {
    Quiet(a.sh) == Quiet(b.sh) && a.tasks == b.tasks && a.delivered == b.delivered && a.asked == b.asked
  }

  predicate IdleSignal(a: Agent, x: Action) {
    !a.sh.inFlight && (x.Steer? || x.Abort?)
  }

  lemma StartAlike(c: Config, a: Agent, b: Agent, t: nat)
    requires Alike(a, b) && Can(c, a, Start(t)) && !a.sh.inFlight
    ensures Can(c, b, Start(t)) && Alike(Apply(c, a, Start(t)), Apply(c, b, Start(t)))
  {
    var args := a.tasks[t].args;
    assert a.sh.followUps == b.sh.followUps;
    if ValidBudget(args.budget) {
      IdleSignalsForgotten(c, a, t, b.sh.steer, b.sh.abortPolicy, b.sh.aborted);
      assert b.sh == a.sh.(steer := b.sh.steer, abortPolicy := b.sh.abortPolicy, aborted := b.sh.aborted);
    } else {
      assert Quiet(Refused(BeginShared(a.sh, args))) == Quiet(Refused(BeginShared(b.sh, args)));
    }
  }

  /** An idle agent has no live run, so only creations, starts and public calls can follow. */
  lemma IdleAlike(c: Config, a: Agent, b: Agent, x: Action)
    requires Alike(a, b) && Gated(a) && Gated(b) && Can(c, a, x) && !a.sh.inFlight
    ensures Can(c, b, x) && Alike(Apply(c, a, x), Apply(c, b, x))
  {
    LiveCountZero(a.tasks);
    match x {
      case Start(t) => StartAlike(c, a, b, t);
      case _ =>
    }
  }

  lemma BusyAlike(c: Config, a: Agent, b: Agent, x: Action)
    requires Alike(a, b) && Can(c, a, x) && a.sh.inFlight
    ensures Can(c, b, x) && Alike(Apply(c, a, x), Apply(c, b, x))
  {
    assert a.sh == b.sh;
    match x {
      case Start(t) =>
      case Advance(t, m) =>
      case _ =>
    }
  }

  lemma SignalAlike(c: Config, a: Agent, x: Action)
    requires Can(c, a, x) && IdleSignal(a, x)
    ensures Alike(Apply(c, a, x), a)
  {
  }

  // ---------------------------------------------------------------- whole executions

  /** The actions without the steers and aborts taken while idle. */
  function Silenced(c: Config, a: Agent, xs: seq<Action>): seq<Action>
    decreases |xs|
  {
    if xs == [] || !Can(c, a, xs[0]) then xs
    else
      var rest := Silenced(c, Apply(c, a, xs[0]), xs[1..]);
      if IdleSignal(a, xs[0]) then rest else [xs[0]] + rest
  }

  lemma {:induction false} SilencedAlike(c: Config, a: Agent, b: Agent, xs: seq<Action>)
    requires Alike(a, b) && Gated(a) && Gated(b) && Perform(c, a, xs).Some?
    ensures Perform(c, b, Silenced(c, a, xs)).Some?
    ensures Alike(Perform(c, a, xs).value, Perform(c, b, Silenced(c, a, xs)).value)
    decreases |xs|
  {
    if xs != [] {
      var x, a' := xs[0], Apply(c, a, xs[0]);
      ApplyGated(c, a, x);
      if IdleSignal(a, x) {
        SignalAlike(c, a, x);
        SilencedAlike(c, a', b, xs[1..]);
      } else {
        if a.sh.inFlight {
          BusyAlike(c, a, b, x);
        } else {
          IdleAlike(c, a, b, x);
        }
        ApplyGated(c, b, x);
        SilencedAlike(c, a', Apply(c, b, x), xs[1..]);
        assert Silenced(c, a, xs)[1..] == Silenced(c, a', xs[1..]);
      }
    }
  }

  /** Every execution, with all its idle steers and aborts left out, is an execution with the same
      runs, event streams, provider requests and delivered states. */
  lemma IdleSignalsNeverSeen(c: Config, xs: seq<Action>)
    requires Perform(c, INIT, xs).Some?
    ensures Perform(c, INIT, Silenced(c, INIT, xs)).Some?
    ensures var a, b := Perform(c, INIT, xs).value, Perform(c, INIT, Silenced(c, INIT, xs)).value;
            a.tasks == b.tasks && a.delivered == b.delivered
  {
    SilencedAlike(c, INIT, INIT, xs);
  }

  // ---------------------------------------------------------------- rejected starts

  predicate RejectedStart(a: Agent, x: Action) {
    x.Start? && a.sh.inFlight
  }

  /** The same agent, except that generators rejected in `a` were never started in `b`. */
  ghost predicate Unstarted(a: Agent, b: Agent) {
    && a == b.(tasks := a.tasks) && |a.tasks| == |b.tasks|
    && forall t | 0 <= t < |a.tasks| ::
         a.tasks[t] == b.tasks[t] || (a.tasks[t] == Over(None, Rejected) && b.tasks[t].Created?)
  }

  lemma RejectedUnstarted(c: Config, a: Agent, b: Agent, x: Action)
    requires Unstarted(a, b) && Can(c, a, x) && RejectedStart(a, x)
    ensures Unstarted(Apply(c, a, x), b)
  {
    RejectedStartChangesNothing(c, a, x.t);
  }

  lemma EnterUnstarted(a: Agent, b: Agent, t: nat)
    requires Unstarted(a, b) && t < |a.tasks| && a.tasks[t].Created?
    ensures b.tasks[t] == a.tasks[t] && Unstarted(DoEnter(a, t), DoEnter(b, t))
  {
    var a', b' := DoEnter(a, t), DoEnter(b, t);
    assert a'.tasks == a.tasks[t := a'.tasks[t]] && b'.tasks == b.tasks[t := b'.tasks[t]];
  }

  lemma LiveIsShared(a: Agent, b: Agent, t: nat)
    requires Unstarted(a, b) && t < |a.tasks| && a.tasks[t].Live?
    ensures b.tasks[t] == a.tasks[t]
  {
  }

  lemma ReplaceUnstarted(a: Agent, b: Agent, t: nat, task: Task, a': Agent)
    requires Unstarted(a, b) && t < |a.tasks| && a'.tasks == a.tasks[t := task]
    ensures Unstarted(a', a'.(tasks := b.tasks[t := task]))
  {
  }

  lemma AdvanceUnstarted(c: Config, a: Agent, b: Agent, t: nat, m: Move)
    requires Unstarted(a, b) && Can(c, a, Advance(t, m))
    ensures Can(c, b, Advance(t, m)) && Unstarted(DoAdvance(c, a, t, m), DoAdvance(c, b, t, m))
  {
    LiveIsShared(a, b, t);
    var a', b' := DoAdvance(c, a, t, m), DoAdvance(c, b, t, m);
    var task := a'.tasks[t];
    assert b' == a'.(tasks := b.tasks[t := task]);
    ReplaceUnstarted(a, b, t, task, a');
  }

  lemma StepUnstarted(c: Config, a: Agent, b: Agent, x: Action)
    requires Unstarted(a, b) && Can(c, a, x) && !RejectedStart(a, x)
    ensures Can(c, b, x) && Unstarted(Apply(c, a, x), Apply(c, b, x))
  {
    match x {
      case Start(t) => EnterUnstarted(a, b, t);
      case Advance(t, m) => AdvanceUnstarted(c, a, b, t, m);
      case _ =>
    }
  }

  /** The actions without the starts that are rejected. */
  function Unrejected(c: Config, a: Agent, xs: seq<Action>): seq<Action>
    decreases |xs|
  {
    if xs == [] || !Can(c, a, xs[0]) then xs
    else
      var rest := Unrejected(c, Apply(c, a, xs[0]), xs[1..]);
      if RejectedStart(a, xs[0]) then rest else [xs[0]] + rest
  }

  lemma {:induction false} AcceptedUnstarted(c: Config, a: Agent, b: Agent, xs: seq<Action>)
    requires Unstarted(a, b) && Perform(c, a, xs).Some?
    ensures Perform(c, b, Unrejected(c, a, xs)).Some?
    ensures Unstarted(Perform(c, a, xs).value, Perform(c, b, Unrejected(c, a, xs)).value)
    decreases |xs|
  {
    if xs != [] {
      var x, a' := xs[0], Apply(c, a, xs[0]);
      if RejectedStart(a, x) {
        RejectedUnstarted(c, a, b, x);
        AcceptedUnstarted(c, a', b, xs[1..]);
      } else {
        StepUnstarted(c, a, b, x);
        AcceptedUnstarted(c, a', Apply(c, b, x), xs[1..]);
        assert Unrejected(c, a, xs)[1..] == Unrejected(c, a', xs[1..]);
      }
    }
  }

  /** Every execution, with all its rejected starts left out, is an execution with the same shared
      variables, deliveries and logs, and the same runs, except that the rejected generators are
      still waiting to be started. */
  lemma RejectedStartsNeverSeen(c: Config, xs: seq<Action>)
    requires Perform(c, INIT, xs).Some?
    ensures Perform(c, INIT, Unrejected(c, INIT, xs)).Some?
    ensures Unstarted(Perform(c, INIT, xs).value, Perform(c, INIT, Unrejected(c, INIT, xs)).value)
  {
    AcceptedUnstarted(c, INIT, INIT, xs);
  }
}
