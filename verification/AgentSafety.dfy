/** What providers see over every chain of fresh runs, suspends, aborts and resumes. */
module AgentSafety {
  import opened Options
  import opened Transcript
  import opened RunStates
  import opened Approvals
  import opened Resume
  import opened RunLoop
  import opened RunEffects
  import opened RunSafety
  import opened AgentRuns
  import opened AgentBooks

  ghost predicate RunSafe(r: Run) {
    Sound(r) && (r.pc.Seeding? ==> !r.resumed)
  }

  ghost predicate TaskSafe(task: Task) {
    match task
    case Created(_) => true
    case Live(r) => RunSafe(r)
    case Over(last, _) => last.Some? ==> GoodRequests(last.value.requests)
  }

  ghost predicate AgentSafe(a: Agent) {
    (forall t | 0 <= t < |a.tasks| :: TaskSafe(a.tasks[t])) &&
    (forall st | st in a.delivered :: Deliverable(st)) &&
    Grouped(a.sh.steer) && Grouped(a.sh.followUps)
  }

  /** The callers the transcript promise is made to: input, steering and follow-ups are grouped
      transcripts of their own; a failed state is not resumed with a directive that decides all its
      approvals; no gated call reuses the id of one that ran; and the deny policy does not meet an
      approval mirrored from a parked sub-agent run. */
  ghost predicate TidyAction(c: Config, a: Agent, x: Action)
    requires Can(c, a, x)
  {
    match x
    case Start(t) =>
      (match a.tasks[t].args.input
       case Fresh(seed) => Grouped(seed)
       case Of(st, directive) => !Bypasses(st, directive))
    case Advance(t, m) => Clean(a.sh, a.tasks[t].run, m)
    case Steer(ms) => Grouped(ms)
    case FollowUp(ms) => Grouped(ms)
    case _ => true
  }

  /** Besides, resumed states are failed or resumable, as every state handed out is. */
  ghost predicate CleanAction(c: Config, a: Agent, x: Action)
    requires Can(c, a, x)
  {
    && TidyAction(c, a, x)
    && (x.Start? && a.tasks[x.t].args.input.Of? ==> Deliverable(a.tasks[x.t].args.input.st))
  }

  lemma RunSafeStep(c: Config, sh: Shared, r: Run, m: Move)
    requires GoodConfig(c) && Enabled(c, sh, r, m) && Clean(sh, r, m) && Grouped(sh.steer) && RunSafe(r)
    ensures RunSafe(Step(c, sh, r, m).1)
  {
    MoveKeepsSound(c, sh, r, m);
    MoveHasEffect(c, sh, r, m);
    NeverSeedsAgain(c, r, m, Step(c, sh, r, m).1);
  }

  lemma NewFreshSafe(args: Args, ride: seq<Message>)
    requires args.input.Fresh? && Grouped(ride) && Grouped(args.input.seed)
    ensures RunSafe(NewRun(args, ride))
  {
    AppendGrouped(ride, args.input.seed);
    NewRunFields(args, ride);
  }

  lemma NewResumeSafe(args: Args, ride: seq<Message>)
    requires args.input.Of? && Deliverable(args.input.st) && !Bypasses(args.input.st, args.input.directive)
    ensures RunSafe(NewRun(args, ride))
  {
    NewRunFields(args, ride);
    assert NewRun(args, ride).directive == args.input.directive;
  }

  /** Replacing one task by a safe one, with safe queues and deliveries, keeps the agent safe. */
  lemma Replaced(a: Agent, b: Agent, t: nat, task: Task)
    requires AgentSafe(a) && t < |a.tasks| && b.tasks == a.tasks[t := task] && TaskSafe(task)
    requires (forall st | st in b.delivered :: Deliverable(st)) && Grouped(b.sh.steer) && Grouped(b.sh.followUps)
    ensures AgentSafe(b)
  {
    forall u | 0 <= u < |b.tasks|
      ensures TaskSafe(b.tasks[u])
    {
      if u != t {
        assert b.tasks[u] == a.tasks[u];
      }
    }
  }

  lemma StartSafe(c: Config, a: Agent, t: nat)
    requires Can(c, a, Start(t)) && CleanAction(c, a, Start(t)) && AgentSafe(a)
    ensures AgentSafe(DoEnter(a, t))
  {
    var args := a.tasks[t].args;
    var b := DoEnter(a, t);
    assert TaskSafe(b.tasks[t]) by {
      if b.tasks[t].Live? {
        if args.input.Fresh? {
          NewFreshSafe(args, a.sh.followUps);
        } else {
          NewResumeSafe(args, []);
        }
      }
    }
    Replaced(a, b, t, b.tasks[t]);
  }

  lemma ReturnDelivers(r: Run)
    requires RunSafe(r) && r.pc.Returning?
    ensures Deliverable(r.w.st)
  {
  }

  lemma SafeTask(r: Run)
    requires RunSafe(r)
    ensures TaskSafe(Live(r)) && TaskSafe(Over(Some(r), Crashed))
  {
  }

  /** The queues after a move are safe when they were. */
  lemma AdvanceQueues(c: Config, a: Agent, t: nat, m: Move)
    requires Can(c, a, Advance(t, m)) && Grouped(a.sh.steer) && Grouped(a.sh.followUps)
    ensures Grouped(DoAdvance(c, a, t, m).sh.steer) && Grouped(DoAdvance(c, a, t, m).sh.followUps)
  {
    AdvanceShared(c, a.sh, a.tasks[t].run, m);
  }

  lemma AdvanceSafe(c: Config, a: Agent, t: nat, m: Move)
    requires GoodConfig(c) && Can(c, a, Advance(t, m)) && Clean(a.sh, a.tasks[t].run, m) && AgentSafe(a)
    ensures AgentSafe(DoAdvance(c, a, t, m))
  {
    var b := DoAdvance(c, a, t, m);
    var r' := Step(c, a.sh, a.tasks[t].run, m).1;
    assert RunSafe(r') by {
      assert TaskSafe(a.tasks[t]);
      RunSafeStep(c, a.sh, a.tasks[t].run, m);
    }
    SafeTask(r');
    if r'.pc.Returning? {
      ReturnDelivers(r');
    }
    AdvanceQueues(c, a, t, m);
    Replaced(a, b, t, if r'.pc.Gone? then Over(Some(r'), Crashed) else Live(r'));
  }

  lemma AppendGrouped(a: seq<Message>, b: seq<Message>)
    requires Grouped(a) && Grouped(b)
    ensures Grouped(a + b)
  {
    if b != [] {
      GroupedStartsClean(b);
    }
    GroupedConcat(a, b);
  }

  lemma ApplySafe(c: Config, a: Agent, x: Action)
    requires GoodConfig(c) && Can(c, a, x) && CleanAction(c, a, x) && AgentSafe(a)
    ensures AgentSafe(Apply(c, a, x))
  {
    match x {
      case Create(args) =>
      case Start(t) => StartSafe(c, a, t);
      case Advance(t, m) => AdvanceSafe(c, a, t, m);
      case Yield(t) =>
        assert TaskSafe(a.tasks[t]);
        Replaced(a, Apply(c, a, x), t, Over(Some(a.tasks[t].run), Returned));
      case Teardown(t) =>
        assert TaskSafe(a.tasks[t]);
        Replaced(a, Apply(c, a, x), t, Over(Some(a.tasks[t].run), Abandoned));
      case Steer(ms) => AppendGrouped(a.sh.steer, ms);
      case FollowUp(ms) => AppendGrouped(a.sh.followUps, ms);
      case _ =>
    }
  }

  ghost predicate CleanExecution(c: Config, xs: seq<Action>, states: seq<Agent>) {
    Execution(c, xs, states) && forall i | 0 <= i < |xs| :: CleanAction(c, states[i], xs[i])
  }

  lemma {:induction false} ExecutionSafe(c: Config, xs: seq<Action>, states: seq<Agent>, n: nat)
    requires GoodConfig(c) && CleanExecution(c, xs, states) && n < |states|
    ensures AgentSafe(states[n])
  {
    if n > 0 {
      ExecutionSafe(c, xs, states, n - 1);
      ApplySafe(c, states[n - 1], xs[n - 1]);
    }
  }

  /** Over every clean execution, each provider request carries a transcript that meets the documented
      rule, and is made with no sub-run parked. */
  lemma RequestsWellFormed(c: Config, xs: seq<Action>, states: seq<Agent>, n: nat, t: nat, q: Request)
    requires GoodConfig(c) && CleanExecution(c, xs, states) && n < |states|
    requires t < |states[n].tasks| && MadeRequest(states[n].tasks[t], q)
    ensures Documented(q.messages) && q.st.parks == []
  {
    ExecutionSafe(c, xs, states, n);
    assert TaskSafe(states[n].tasks[t]);
    assert GoodRequest(q);
  }
}
