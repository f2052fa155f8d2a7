/** What reaches a live run, in every execution: the arguments it was started with, and the aborts issued
    since, the last policy in force. */
module AgentSignals {
  import opened Options
  import opened Transcript
  import opened RunStates
  import Approvals
  import opened Resume
  import opened RunLoop
  import opened AgentRuns

  /** The policy of the last abort among the actions from `i` to `n`, if there was one. */
  ghost predicate LastAbortIs(xs: seq<Action>, i: nat, n: nat, policy: Option<Policy>)
    requires n <= |xs|
  {
    match policy
    case None => forall k | i <= k < n :: !xs[k].Abort?
    case Some(p) => exists k | i <= k < n :: xs[k] == Abort(p) && forall j | k < j < n :: !xs[j].Abort?
  }

  /** An abort of the agent, or of the run's parent, arrived. */
  ghost predicate Tripped(xs: seq<Action>, i: nat, n: nat, t: nat)
    requires n <= |xs|
  {
    exists k | i <= k < n :: xs[k].Abort? || xs[k] == ParentAbort(t)
  }

  /** The run works under the arguments of its own start. */
  predicate Serves(r: Run, args: Args) {
    && r.budget == args.budget && r.resumed == args.input.Of?
    && (args.input.Of? ==> r.directive == args.input.directive && r.startUsage == args.input.st.usage)
    && (args.input.Fresh? ==> r.directive == None && r.startUsage == ZERO)
  }

  lemma NewRunServes(args: Args, ride: seq<Message>)
    ensures Serves(NewRun(args, ride), args)
  {
  }

  lemma ResumedServes(r: Run, o: Outcome, args: Args)
    requires Serves(r, args)
    ensures Serves(Resumed(r, o), args)
  {
  }

  lemma TopServes(c: Config, sh: Shared, r: Run, args: Args)
    requires Serves(r, args)
    ensures Serves(DoTop(c, sh, r).1, args)
    ensures DoTop(c, sh, r).0.abortPolicy == sh.abortPolicy && DoTop(c, sh, r).0.aborted == sh.aborted
  {
  }

  /** No move changes the arguments or the abort state. */
  lemma StepServes(c: Config, sh: Shared, r: Run, m: Move, args: Args)
    requires Enabled(c, sh, r, m) && Serves(r, args)
    ensures Serves(Step(c, sh, r, m).1, args)
    ensures Step(c, sh, r, m).0.abortPolicy == sh.abortPolicy && Step(c, sh, r, m).0.aborted == sh.aborted
  {
    if IsOpening(m) {
      OpeningServes(c, sh, r, m, args);
    } else if IsFailure(m) {
      FailureServes(c, sh, r, m, args);
    } else if IsRequest(m) {
      RequestServes(c, sh, r, m, args);
    } else {
      ClosingServes(c, sh, r, m, args);
    }
  }

  lemma OpeningServes(c: Config, sh: Shared, r: Run, m: Move, args: Args)
    requires Enabled(c, sh, r, m) && IsOpening(m) && Serves(r, args)
    ensures Serves(Step(c, sh, r, m).1, args)
    ensures Step(c, sh, r, m).0.abortPolicy == sh.abortPolicy && Step(c, sh, r, m).0.aborted == sh.aborted
  {
    match m {
      case Top => TopServes(c, sh, r, args);
      case Resumption(children, folds, throws) =>
        ResumedServes(r, ResumeWith(r.w, r.directive, children, folds, throws), args);
      case _ =>
    }
  }

  lemma FailureServes(c: Config, sh: Shared, r: Run, m: Move, args: Args)
    requires Enabled(c, sh, r, m) && IsFailure(m) && Serves(r, args)
    ensures Serves(Step(c, sh, r, m).1, args) && Step(c, sh, r, m).0 == sh
  {
  }

  lemma RequestServes(c: Config, sh: Shared, r: Run, m: Move, args: Args)
    requires Enabled(c, sh, r, m) && IsRequest(m) && Serves(r, args)
    ensures Serves(Step(c, sh, r, m).1, args)
    ensures Step(c, sh, r, m).0.abortPolicy == sh.abortPolicy && Step(c, sh, r, m).0.aborted == sh.aborted
  {
  }

  lemma WalkedServes(sh: Shared, r: Run, k: Approvals.Walk, args: Args)
    requires r.pc.Walking? && Serves(r, args)
    ensures Serves(Walked(sh, r, k), args)
  {
  }

  lemma CloseServes(sh: Shared, r: Run, again: bool, feedback: string, args: Args)
    requires r.pc.Closing? && Serves(r, args)
    ensures Serves(DoClose(r, again, feedback), args)
    ensures var sh' := Exited(sh, r, DoClose(r, again, feedback));
            sh'.abortPolicy == sh.abortPolicy && sh'.aborted == sh.aborted
  {
  }

  lemma ClosingServes(c: Config, sh: Shared, r: Run, m: Move, args: Args)
    requires Enabled(c, sh, r, m) && IsClosing(m) && Serves(r, args)
    ensures Serves(Step(c, sh, r, m).1, args)
    ensures Step(c, sh, r, m).0.abortPolicy == sh.abortPolicy && Step(c, sh, r, m).0.aborted == sh.aborted
  {
    match m {
      case WalkDone(outcomes) => WalkedServes(sh, r, Approvals.WalkStep(r.w, r.pc.calls, outcomes), args);
      case Close(again, feedback) => CloseServes(sh, r, again, feedback, args);
      case _ =>
    }
  }

  lemma OthersOver(a: Agent, t: nat)
    requires Gated(a) && t < |a.tasks| && a.tasks[t].Live?
    ensures forall u | 0 <= u < |a.tasks| && u != t :: !a.tasks[u].Live?
  {
    var over := a.tasks[t := Over(None, Rejected)];
    LiveCountUpdate(a.tasks, t, Over(None, Rejected));
    LiveCountZero(over);
    forall u | 0 <= u < |a.tasks| && u != t
      ensures !a.tasks[u].Live?
    {
      assert over[u] == a.tasks[u];
    }
  }

  /** What holds of a live run started at `i`. */
  ghost predicate Since(xs: seq<Action>, states: seq<Agent>, i: nat, n: nat, t: nat) {
    && i < n <= |xs| && n < |states| && xs[i] == Start(t) && t < |states[i].tasks| && states[i].tasks[t].Created?
    && t < |states[n].tasks| && states[n].tasks[t].Live? && Serves(states[n].tasks[t].run, states[i].tasks[t].args)
    && LastAbortIs(xs, i + 1, n, states[n].sh.abortPolicy)
    && (states[n].sh.aborted <==> states[i].tasks[t].args.parent.AlreadyAborted? || Tripped(xs, i + 1, n, t))
  }

  lemma SinceStart(c: Config, xs: seq<Action>, states: seq<Agent>, i: nat, t: nat)
    requires Execution(c, xs, states) && i < |xs| && xs[i] == Start(t)
    requires t < |states[i + 1].tasks| && states[i + 1].tasks[t].Live?
    ensures Since(xs, states, i, i + 1, t)
  {
    var args := states[i].tasks[t].args;
    NewRunServes(args, if args.input.Fresh? then states[i].sh.followUps else []);
  }

  lemma AbortLast(xs: seq<Action>, i: nat, n: nat, policy: Option<Policy>, t: nat)
    requires i <= n < |xs| && LastAbortIs(xs, i, n, policy)
    ensures LastAbortIs(xs, i, n + 1, if xs[n].Abort? then Some(xs[n].policy) else policy)
    ensures Tripped(xs, i, n + 1, t) <==> Tripped(xs, i, n, t) || xs[n].Abort? || xs[n] == ParentAbort(t)
  {
    if !xs[n].Abort? && policy.Some? {
      var k :| i <= k < n && xs[k] == Abort(policy.value) && forall j | k < j < n :: !xs[j].Abort?;
      assert xs[k] == Abort(policy.value) && forall j | k < j < n + 1 :: !xs[j].Abort?;
    }
  }

  /** What one action does to the abort state a live run sees, and to the run. */
  lemma ActionSignals(c: Config, a: Agent, x: Action, t: nat, args: Args)
    requires Can(c, a, x) && Gated(a) && t < |a.tasks| && a.tasks[t].Live? && Serves(a.tasks[t].run, args)
    requires t < |Apply(c, a, x).tasks| && Apply(c, a, x).tasks[t].Live?
    ensures var b := Apply(c, a, x);
            && Serves(b.tasks[t].run, args)
            && b.sh.abortPolicy == (if x.Abort? then Some(x.policy) else a.sh.abortPolicy)
            && (b.sh.aborted <==> a.sh.aborted || x.Abort? || x == ParentAbort(t))
  {
    LiveImpliesInFlight(a, t);
    OthersOver(a, t);
    if x.Advance? {
      StepServes(c, a.sh, a.tasks[t].run, x.m, args);
    }
  }

  lemma LiveBefore(c: Config, a: Agent, x: Action, t: nat)
    requires Can(c, a, x) && t < |Apply(c, a, x).tasks| && Apply(c, a, x).tasks[t].Live? && x != Start(t)
    ensures t < |a.tasks| && a.tasks[t].Live?
  {
  }

  /** In every execution a live run was started by one action, serves that start's arguments, and sees
      exactly the aborts issued since: none or the last one's policy, and tripped exactly if its parent's
      signal was, or one arrived. */
  lemma {:induction false} SignalsExactly(
      c: Config, xs: seq<Action>, states: seq<Agent>, n: nat, t: nat) returns (i: nat)
    requires Execution(c, xs, states) && n < |states| && t < |states[n].tasks| && states[n].tasks[t].Live?
    ensures Since(xs, states, i, n, t)
  {
    var a, x := states[n - 1], xs[n - 1];
    if x == Start(t) {
      i := n - 1;
      SinceStart(c, xs, states, i, t);
    } else {
      LiveBefore(c, a, x, t);
      i := SignalsExactly(c, xs, states, n - 1, t);
      SinceStep(c, xs, states, i, n, t);
    }
  }

  lemma SinceStep(c: Config, xs: seq<Action>, states: seq<Agent>, i: nat, n: nat, t: nat)
    requires Execution(c, xs, states) && 0 < n < |states| && Since(xs, states, i, n - 1, t)
    requires t < |states[n].tasks| && states[n].tasks[t].Live?
    ensures Since(xs, states, i, n, t)
  {
    SignalsStep(c, xs, states, i, n, t);
    AbortLast(xs, i + 1, n - 1, states[n - 1].sh.abortPolicy, t);
  }

  lemma SignalsStep(c: Config, xs: seq<Action>, states: seq<Agent>, i: nat, n: nat, t: nat)
    requires Execution(c, xs, states) && 0 < n < |states| && Since(xs, states, i, n - 1, t)
    requires t < |states[n].tasks| && states[n].tasks[t].Live?
    ensures var a, b, x := states[n - 1], states[n], xs[n - 1];
            && Serves(b.tasks[t].run, states[i].tasks[t].args)
            && b.sh.abortPolicy == (if x.Abort? then Some(x.policy) else a.sh.abortPolicy)
            && (b.sh.aborted <==> a.sh.aborted || x.Abort? || x == ParentAbort(t))
  {
    SingleFlight(c, xs, states, n - 1);
    ActionSignals(c, states[n - 1], xs[n - 1], t, states[i].tasks[t].args);
  }
}
