/** Every provider request of every execution is accepted by the two-set pass, under conditions each of
    which is exact for the operation it is about. */
module AgentAccepted {
  import opened Options
  import opened Transcript
  import opened RunStates
  import opened Resume
  import opened Completion
  import opened RunLoop
  import opened RunCalm
  import opened RunSafety
  import opened RunAccepted
  import opened AgentRuns
  import opened AgentBooks

  ghost predicate RunPasses(r: Run) {
    Passes(r) && AcceptedRequests(r.requests)
  }

  ghost predicate TaskPasses(task: Task) {
    match task
    case Created(_) => true
    case Live(r) => RunPasses(r)
    case Over(last, _) => last.Some? ==> AcceptedRequests(last.value.requests)
  }

  ghost predicate AgentPasses(a: Agent) {
    (forall t | 0 <= t < |a.tasks| :: TaskPasses(a.tasks[t])) &&
    (forall st | st in a.delivered :: Acceptable(st)) &&
    Accepted(a.sh.steer) && Accepted(a.sh.followUps)
  }

  /** Seeds, steering and follow-ups are accepted transcripts; a failed state that its directive revives
      is acceptable once its approvals are decided; moves are fair. Ids may be reused freely. */
  ghost predicate EvenAction(c: Config, a: Agent, x: Action)
    requires Can(c, a, x)
  {
    match x
    case Start(t) =>
      (match a.tasks[t].args.input
       case Fresh(seed) => Accepted(seed)
       case Of(st, directive) => Bypasses(st, directive) ==> Completable(st))
    case Advance(t, m) => Fair(a.sh, a.tasks[t].run, m)
    case Steer(ms) => Accepted(ms)
    case FollowUp(ms) => Accepted(ms)
    case _ => true
  }

  /** Besides, resumed states are as every state handed out is. */
  ghost predicate FairAction(c: Config, a: Agent, x: Action)
    requires Can(c, a, x)
  {
    && EvenAction(c, a, x)
    && (x.Start? && a.tasks[x.t].args.input.Of? ==>
          Guarded(a.tasks[x.t].args.input.st) && Acceptable(a.tasks[x.t].args.input.st))
  }

  lemma NewFreshPasses(args: Args, ride: seq<Message>)
    requires args.input.Fresh? && Accepted(ride) && Accepted(args.input.seed)
    ensures RunPasses(NewRun(args, ride))
  {
    ConcatAccepted(ride, args.input.seed);
    NewRunFields(args, ride);
  }

  lemma NewResumePasses(args: Args, ride: seq<Message>)
    requires args.input.Of? && Acceptable(args.input.st)
    requires Bypasses(args.input.st, args.input.directive) ==> Completable(args.input.st)
    ensures RunPasses(NewRun(args, ride))
  {
    NewRunFields(args, ride);
    assert NewRun(args, ride).directive == args.input.directive;
  }

  lemma PassesReplaced(a: Agent, b: Agent, t: nat, task: Task)
    requires AgentPasses(a) && t < |a.tasks| && b.tasks == a.tasks[t := task] && TaskPasses(task)
    requires (forall st | st in b.delivered :: Acceptable(st)) && Accepted(b.sh.steer) && Accepted(b.sh.followUps)
    ensures AgentPasses(b)
  {
    forall u | 0 <= u < |b.tasks|
      ensures TaskPasses(b.tasks[u])
    {
      if u != t {
        assert b.tasks[u] == a.tasks[u];
      }
    }
  }

  lemma StartPasses(c: Config, a: Agent, t: nat)
    requires Can(c, a, Start(t)) && FairAction(c, a, Start(t)) && AgentPasses(a)
    ensures AgentPasses(DoEnter(a, t))
  {
    var args := a.tasks[t].args;
    var b := DoEnter(a, t);
    assert TaskPasses(b.tasks[t]) by {
      if b.tasks[t].Live? {
        if args.input.Fresh? {
          NewFreshPasses(args, a.sh.followUps);
        } else {
          NewResumePasses(args, []);
        }
      }
    }
    PlainAccepted([]);
    PassesReplaced(a, b, t, b.tasks[t]);
  }

  lemma RunPassesStep(c: Config, sh: Shared, r: Run, m: Move)
    requires GoodConfig(c) && Enabled(c, sh, r, m) && Fair(sh, r, m) && RunPasses(r)
    requires CalmAt(r.pc, r.resumed, r.w.st) && Accepted(sh.steer)
    ensures RunPasses(Step(c, sh, r, m).1)
  {
    MoveKeepsPassing(c, sh, r, m);
    RequestsStayAccepted(c, sh, r, m);
  }

  lemma ReturnAcceptable(r: Run)
    requires RunPasses(r) && r.pc.Returning?
    ensures Acceptable(r.w.st)
  {
  }

  lemma AdvanceQueuesPass(c: Config, a: Agent, t: nat, m: Move)
    requires Can(c, a, Advance(t, m)) && Accepted(a.sh.steer) && Accepted(a.sh.followUps)
    ensures Accepted(DoAdvance(c, a, t, m).sh.steer) && Accepted(DoAdvance(c, a, t, m).sh.followUps)
  {
    AdvanceShared(c, a.sh, a.tasks[t].run, m);
    PlainAccepted([]);
  }

  lemma EndedPasses(r: Run)
    requires RunPasses(r)
    ensures TaskPasses(Live(r)) && TaskPasses(Over(Some(r), Crashed))
  {
  }

  lemma AdvancePasses(c: Config, a: Agent, t: nat, m: Move)
    requires GoodConfig(c) && Can(c, a, Advance(t, m)) && Fair(a.sh, a.tasks[t].run, m)
    requires AgentPasses(a) && AgentKept(APPROVALS, a)
    ensures AgentPasses(DoAdvance(c, a, t, m))
  {
    var b := DoAdvance(c, a, t, m);
    var r' := Step(c, a.sh, a.tasks[t].run, m).1;
    assert RunPasses(r') by {
      assert TaskPasses(a.tasks[t]) && TaskKept(APPROVALS, a.tasks[t]);
      RunPassesStep(c, a.sh, a.tasks[t].run, m);
    }
    EndedPasses(r');
    if r'.pc.Returning? {
      ReturnAcceptable(r');
    }
    AdvanceQueuesPass(c, a, t, m);
    PassesReplaced(a, b, t, if r'.pc.Gone? then Over(Some(r'), Crashed) else Live(r'));
  }

  lemma ApplyPasses(c: Config, a: Agent, x: Action)
    requires GoodConfig(c) && Can(c, a, x) && FairAction(c, a, x) && AgentPasses(a) && AgentKept(APPROVALS, a)
    ensures AgentPasses(Apply(c, a, x))
  {
    match x {
      case Create(args) =>
      case Start(t) => StartPasses(c, a, t);
      case Advance(t, m) => AdvancePasses(c, a, t, m);
      case Yield(t) =>
        assert TaskPasses(a.tasks[t]);
        PassesReplaced(a, Apply(c, a, x), t, Over(Some(a.tasks[t].run), Returned));
      case Teardown(t) =>
        assert TaskPasses(a.tasks[t]);
        PassesReplaced(a, Apply(c, a, x), t, Over(Some(a.tasks[t].run), Abandoned));
      case Steer(ms) => ConcatAccepted(a.sh.steer, ms);
      case FollowUp(ms) => ConcatAccepted(a.sh.followUps, ms);
      case _ =>
    }
  }

  ghost predicate FairExecution(c: Config, xs: seq<Action>, states: seq<Agent>) {
    Execution(c, xs, states) && forall i | 0 <= i < |xs| :: FairAction(c, states[i], xs[i])
  }

  lemma {:induction false} ExecutionPasses(c: Config, xs: seq<Action>, states: seq<Agent>, n: nat)
    requires GoodConfig(c) && FairExecution(c, xs, states) && n < |states|
    ensures AgentPasses(states[n]) && AgentKept(APPROVALS, states[n])
  {
    if n > 0 {
      ExecutionPasses(c, xs, states, n - 1);
      ApplyPasses(c, states[n - 1], xs[n - 1]);
      ApplyKept(APPROVALS, c, states[n - 1], xs[n - 1]);
    } else {
      PlainAccepted([]);
    }
  }

  lemma AcceptedRequest(task: Task, q: Request)
    requires TaskPasses(task) && MadeRequest(task, q)
    ensures Accepted(q.messages)
  {
    assert AcceptedRequests(RunOf(task).requests);
  }

  /** Over every fair chain of runs, suspends, aborts and resumes each provider request carries a
      transcript the two-set pass accepts. */
  lemma RequestsAccepted(c: Config, xs: seq<Action>, states: seq<Agent>, n: nat, t: nat, q: Request)
    requires GoodConfig(c) && FairExecution(c, xs, states) && n < |states|
    requires t < |states[n].tasks| && MadeRequest(states[n].tasks[t], q)
    ensures Accepted(q.messages)
  {
    ExecutionPasses(c, xs, states, n);
    assert TaskPasses(states[n].tasks[t]);
    AcceptedRequest(states[n].tasks[t], q);
  }
}
