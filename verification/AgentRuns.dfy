/** One agent instance: its runs, the closure variables they share, and the public calls that land
    between any two moves of a run. */
module AgentRuns {
  import opened Options
  import opened Transcript
  import opened RunStates
  import opened Resume
  import opened RunLoop

  datatype Input = Fresh(seed: seq<Message>) | Of(st: RunState, directive: Option<seq<Decision>>)

  datatype Parent = NoParent | Attached | AlreadyAborted

  datatype Args = Args(input: Input, budget: Budget, parent: Parent)

  datatype End = Rejected | BadBudget | Returned | Crashed | Abandoned

  /** A generator object: created, running, or over. */
  datatype Task = Created(args: Args) | Live(run: Run) | Over(last: Option<Run>, how: End)

  /** What became of a batch of steered messages. */
  datatype Fate = Drained(task: nat, ms: seq<Message>) | Dropped(ms: seq<Message>)

  /** What became of the follow-ups queued when a fresh run started. */
  datatype Ride = RodeInto(task: nat, ms: seq<Message>) | Lost(task: nat, ms: seq<Message>)

  /** `delivered` collects the states agent.end carried out; the remaining fields are logs:
      all steered messages and their fates, all follow-ups and their rides, compactions asked for. */
  datatype Agent = Agent(
    sh: Shared,
    tasks: seq<Task>,
    delivered: seq<RunState>,
    steered: seq<Message>,
    fates: seq<Fate>,
    queued: seq<Message>,
    rides: seq<Ride>,
    asked: nat)

  const IDLE := Shared(false, [], [], None, false, false, [], [], 0, 0)

  const INIT := Agent(IDLE, [], [], [], [], [], [], 0)

  datatype Action =
    | Create(args: Args)
    | Start(t: nat)
    | Advance(t: nat, m: Move)
    | Yield(t: nat)                       // the consumer takes the final value
    | Teardown(t: nat)                    // the consumer abandons the stream
    | Steer(ms: seq<Message>)
    | FollowUp(ms: seq<Message>)
    | Abort(policy: Policy)
    | Compact
    | ParentAbort(t: nat)

  predicate Can(c: Config, a: Agent, x: Action) {
    match x
    case Start(t) => t < |a.tasks| && a.tasks[t].Created?
    case Advance(t, m) => t < |a.tasks| && a.tasks[t].Live? && Enabled(c, a.sh, a.tasks[t].run, m)
    case Yield(t) => t < |a.tasks| && a.tasks[t].Live? && a.tasks[t].run.pc.Returning?
    case Teardown(t) => t < |a.tasks| && a.tasks[t].Live?
    case ParentAbort(t) => t < |a.tasks| && a.tasks[t].Live? && a.tasks[t].run.listener
    case _ => true
  }

  /** The entry point's `finally`; the loop's own `finally` ran only if the loop was reached. */
  function Leave(sh: Shared, r: Run): Shared {
    SettleCompacts(sh).(inFlight := false, active := false, spans := Less(sh.spans, r.entered && r.span),
                        listeners := Less(sh.listeners, r.entered && r.listener))
  }

  function NewRun(args: Args, ride: seq<Message>): Run {
    var isNew := args.input.Fresh?;
    var st := if isNew then FRESH else args.input.st;
    Run(if isNew then None else args.input.directive, !isNew, Work(st, st.messages, ZERO), 0, 0, 0, false,
        !isNew, args.parent.Attached?, args.budget, st.status, st.usage, st.usage, 0, [], [],
        if isNew then [] else [AgentStart], [], if isNew then Seeding(ride + args.input.seed) else Opened)
  }

  function BeginShared(sh: Shared, args: Args): Shared {
    sh.(inFlight := true, steer := [], abortPolicy := None,
        followUps := if args.input.Fresh? then [] else sh.followUps)
  }

  function OpenShared(sh: Shared, args: Args): Shared {
    sh.(aborted := args.parent.AlreadyAborted?, active := true,
        listeners := sh.listeners + (if args.parent.Attached? then 1 else 0),
        spans := sh.spans + (if args.input.Fresh? then 0 else 1))
  }

  /** The entry point's `finally` after a malformed budget. */
  function Refused(sh: Shared): Shared {
    SettleCompacts(sh).(inFlight := false, active := false)
  }

  /** First `next()` of a generator: rejected while another run is in flight. Steering and abort left
      over from between runs are forgotten, follow-ups are taken, then the budget is validated. */
  function DoEnter(a: Agent, t: nat): Agent
    requires t < |a.tasks| && a.tasks[t].Created?
  {
    var args := a.tasks[t].args;
    if a.sh.inFlight then a.(tasks := a.tasks[t := Over(None, Rejected)])
    else
      var sh := BeginShared(a.sh, args);
      var b := a.(fates := a.fates + [Dropped(a.sh.steer)]);
      var ride := if args.input.Fresh? then a.sh.followUps else [];
      if !ValidBudget(args.budget) then
        b.(sh := Refused(sh),
           tasks := a.tasks[t := Over(None, BadBudget)], rides := a.rides + [Lost(t, ride)])
      else
        b.(sh := OpenShared(sh, args), tasks := a.tasks[t := Live(NewRun(args, ride))],
           rides := a.rides + [RodeInto(t, ride)])
  }

  function DoAdvance(c: Config, a: Agent, t: nat, m: Move): Agent
    requires t < |a.tasks| && a.tasks[t].Live?
  {
    var r := a.tasks[t].run;
    var (sh, r') := Step(c, a.sh, r, m);
    var drained := m.Top? && r'.pc.StepOpen?;
    var b := a.(fates := if drained then a.fates + [Drained(t, a.sh.steer)] else a.fates,
                delivered := if r'.pc.Returning? then a.delivered + [r'.w.st] else a.delivered);
    if r'.pc.Gone? then b.(sh := Leave(sh, r'), tasks := a.tasks[t := Over(Some(r'), Crashed)])
    else b.(sh := sh, tasks := a.tasks[t := Live(r')])
  }

  function Steered(sh: Shared, ms: seq<Message>): Shared {
    sh.(steer := sh.steer + ms)
  }

  function Queued(sh: Shared, ms: seq<Message>): Shared {
    sh.(followUps := sh.followUps + ms)
  }

  function Aborting(sh: Shared, policy: Policy): Shared {
    sh.(abortPolicy := Some(policy), aborted := true)
  }

  function CompactAsked(sh: Shared, id: nat): Shared {
    sh.(compacts := sh.compacts + [id])
  }

  function Apply(c: Config, a: Agent, x: Action): Agent
    requires Can(c, a, x)
  {
    match x
    case Create(args) => a.(tasks := a.tasks + [Created(args)])
    case Start(t) => DoEnter(a, t)
    case Advance(t, m) => DoAdvance(c, a, t, m)
    case Yield(t) =>
      var r := a.tasks[t].run;
      a.(sh := Leave(a.sh, r), tasks := a.tasks[t := Over(Some(r), Returned)])
    case Teardown(t) =>
      var r := a.tasks[t].run;
      a.(sh := Leave(a.sh, r), tasks := a.tasks[t := Over(Some(r), Abandoned)])
    case Steer(ms) => a.(sh := Steered(a.sh, ms), steered := a.steered + ms)
    case FollowUp(ms) => a.(sh := Queued(a.sh, ms), queued := a.queued + ms)
    case Abort(policy) => a.(sh := Aborting(a.sh, policy))
    case Compact => if a.sh.active then a.(sh := CompactAsked(a.sh, a.asked), asked := a.asked + 1) else a
    case ParentAbort(t) => a.(sh := a.sh.(aborted := true))
  }

  /** The agent after a sequence of actions, if each can be taken. */
  function Perform(c: Config, a: Agent, xs: seq<Action>): Option<Agent>
    decreases |xs|
  {
    if xs == [] then Some(a)
    else if Can(c, a, xs[0]) then Perform(c, Apply(c, a, xs[0]), xs[1..])
    else None
  }

  /** The states before each action and after the last. */
  ghost predicate Path(c: Config, a: Agent, xs: seq<Action>, states: seq<Agent>) {
    |states| == |xs| + 1 && states[0] == a &&
    forall i | 0 <= i < |xs| :: Can(c, states[i], xs[i]) && states[i + 1] == Apply(c, states[i], xs[i])
  }

  /** An execution from the initial state. */
  ghost predicate Execution(c: Config, xs: seq<Action>, states: seq<Agent>) {
    Path(c, INIT, xs, states)
  }

  lemma {:induction false} PathPerforms(c: Config, a: Agent, xs: seq<Action>, states: seq<Agent>)
    requires Path(c, a, xs, states)
    ensures Perform(c, a, xs) == Some(states[|xs|])
    decreases |xs|
  {
    if xs != [] {
      PathPerforms(c, states[1], xs[1..], states[1..]);
    }
  }

  lemma {:induction false} PerformHasPath(c: Config, a: Agent, xs: seq<Action>) returns (states: seq<Agent>)
    requires Perform(c, a, xs).Some?
    ensures Path(c, a, xs, states)
    decreases |xs|
  {
    states := [a];
    if xs != [] {
      var rest := PerformHasPath(c, Apply(c, a, xs[0]), xs[1..]);
      states := [a] + rest;
    }
  }

  /** An agent is the result of performing actions exactly when an execution of them ends in it. */
  lemma PerformIsExecution(c: Config, xs: seq<Action>, a: Agent)
    ensures Perform(c, INIT, xs) == Some(a) <==> exists states :: Execution(c, xs, states) && states[|xs|] == a
  {
    if Perform(c, INIT, xs) == Some(a) {
      var states := PerformHasPath(c, INIT, xs);
      PathPerforms(c, INIT, xs, states);
      assert Execution(c, xs, states);
    }
    if states :| Execution(c, xs, states) && states[|xs|] == a {
      PathPerforms(c, INIT, xs, states);
    }
  }

  // ---------------------------------------------------------------- single flight

  function LiveCount(tasks: seq<Task>): nat {
    if tasks == [] then 0 else LiveCount(tasks[..|tasks| - 1]) + (if tasks[|tasks| - 1].Live? then 1 else 0)
  }

  lemma {:induction false} LiveCountUpdate(tasks: seq<Task>, t: nat, task: Task)
    requires t < |tasks|
    ensures LiveCount(tasks[t := task]) ==
            LiveCount(tasks) - (if tasks[t].Live? then 1 else 0) + (if task.Live? then 1 else 0)
  {
    var n := |tasks| - 1;
    if t < n {
      assert tasks[t := task][..n] == tasks[..n][t := task];
      LiveCountUpdate(tasks[..n], t, task);
    } else {
      assert tasks[t := task][..n] == tasks[..n];
    }
  }

  lemma {:induction false} LiveCountZero(tasks: seq<Task>)
    ensures LiveCount(tasks) == 0 <==> forall t | 0 <= t < |tasks| :: !tasks[t].Live?
  {
    if tasks != [] {
      LiveCountZero(tasks[..|tasks| - 1]);
      assert forall t | 0 <= t < |tasks| - 1 :: tasks[..|tasks| - 1][t] == tasks[t];
    }
  }

  /** At most one live run, tracked by the flag; an idle agent has nothing queued to settle. */
  ghost predicate Gated(a: Agent) {
    LiveCount(a.tasks) == (if a.sh.inFlight then 1 else 0) &&
    (!a.sh.inFlight ==> !a.sh.active && a.sh.compacts == [])
  }

  lemma {:induction false} LiveImpliesInFlight(a: Agent, t: nat)
    requires Gated(a) && t < |a.tasks| && a.tasks[t].Live?
    ensures a.sh.inFlight
  {
    LiveCountZero(a.tasks);
  }

  /** What a move does to the shared queues and flags. */
  ghost predicate SharedEffect(sh: Shared, sh': Shared) {
    sh'.inFlight == sh.inFlight && sh'.followUps == sh.followUps && (sh'.active ==> sh.active) &&
    sh'.settled + sh'.compacts == sh.settled + sh.compacts
  }

  lemma SettleShared(sh: Shared)
    ensures SharedEffect(sh, SettleCompacts(sh)) && SettleCompacts(sh).steer == sh.steer
  {
    assert (sh.settled + sh.compacts) + [] == sh.settled + sh.compacts;
  }

  lemma TopShared(c: Config, sh: Shared, r: Run)
    ensures SharedEffect(sh, DoTop(c, sh, r).0)
    ensures DoTop(c, sh, r).0.steer == if DoTop(c, sh, r).1.pc.StepOpen? then [] else sh.steer
  {
  }

  lemma AdvanceShared(c: Config, sh: Shared, r: Run, m: Move)
    requires Enabled(c, sh, r, m)
    ensures SharedEffect(sh, Step(c, sh, r, m).0)
    ensures Step(c, sh, r, m).0.steer == if m.Top? && Step(c, sh, r, m).1.pc.StepOpen? then [] else sh.steer
  {
    SettleShared(sh);
    if m.Top? {
      TopShared(c, sh, r);
    }
  }

  lemma ApplyGated(c: Config, a: Agent, x: Action)
    requires Can(c, a, x) && Gated(a)
    ensures Gated(Apply(c, a, x))
  {
    match x {
      case Create(args) => assert (a.tasks + [Created(args)])[..|a.tasks|] == a.tasks;
      case Start(t) => EnterGated(a, t);
      case Advance(t, m) => AdvanceGated(c, a, t, m);
      case Yield(t) => LiveCountUpdate(a.tasks, t, Over(Some(a.tasks[t].run), Returned)); LiveImpliesInFlight(a, t);
      case Teardown(t) => LiveCountUpdate(a.tasks, t, Over(Some(a.tasks[t].run), Abandoned)); LiveImpliesInFlight(a, t);
      case _ =>
    }
  }

  lemma EnterGated(a: Agent, t: nat)
    requires t < |a.tasks| && a.tasks[t].Created? && Gated(a)
    ensures Gated(DoEnter(a, t))
  {
    LiveCountUpdate(a.tasks, t, DoEnter(a, t).tasks[t]);
  }

  lemma AdvanceGated(c: Config, a: Agent, t: nat, m: Move)
    requires Can(c, a, Advance(t, m)) && Gated(a)
    ensures Gated(DoAdvance(c, a, t, m))
  {
    AdvanceShared(c, a.sh, a.tasks[t].run, m);
    LiveImpliesInFlight(a, t);
    LiveCountUpdate(a.tasks, t, DoAdvance(c, a, t, m).tasks[t]);
  }

  /** In every execution at most one run is live at any time, and an idle agent has no flag up and no
      compaction waiting. */
  lemma {:induction false} SingleFlight(c: Config, xs: seq<Action>, states: seq<Agent>, n: nat)
    requires Execution(c, xs, states) && n < |states|
    ensures Gated(states[n]) && LiveCount(states[n].tasks) <= 1
  {
    if n > 0 {
      SingleFlight(c, xs, states, n - 1);
      ApplyGated(c, states[n - 1], xs[n - 1]);
    }
  }

  /** A start that is rejected changes nothing but its own generator. */
  lemma RejectedStartChangesNothing(c: Config, a: Agent, t: nat)
    requires Can(c, a, Start(t)) && a.sh.inFlight
    ensures Apply(c, a, Start(t)) == a.(tasks := a.tasks[t := Over(None, Rejected)])
  {
  }

  /** Steering, aborts and parent signals that arrive between runs cannot be told apart from silence
      by the next run: it starts in the same state and runs on the same shared variables. */
  lemma IdleSignalsForgotten(c: Config, a: Agent, t: nat, steer: seq<Message>, policy: Option<Policy>, aborted: bool)
    requires Can(c, a, Start(t)) && !a.sh.inFlight && ValidBudget(a.tasks[t].args.budget)
    ensures var noisy := a.(sh := a.sh.(steer := steer, abortPolicy := policy, aborted := aborted));
            Can(c, noisy, Start(t)) &&
            Apply(c, noisy, Start(t)).sh == Apply(c, a, Start(t)).sh &&
            Apply(c, noisy, Start(t)).tasks == Apply(c, a, Start(t)).tasks
  {
  }
}
