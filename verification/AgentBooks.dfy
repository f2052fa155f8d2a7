/** Journals, ledgers, and when a provider may be asked, whatever callers, providers and tools do. Each
    promise about a run is made under no more than the same promise about the states that are resumed,
    and a run's own share of the usage under none. */
module AgentBooks {
  import opened Options
  import opened Transcript
  import opened RunStates
  import opened Approvals
  import opened Resume
  import opened Ledgers
  import opened RunLoop
  import opened RunEffects
  import opened RunBooks
  import opened RunCalm
  import opened AgentRuns

  // ---------------------------------------------------------------- books of one run

  /** A failed run with nothing left to decide. */
  predicate Dead(st: RunState) {
    st.status.Failed? && st.pending == []
  }

  /** Unless it is dead, a run has everything journaled; and a run that entered the loop has all but
      what its failing step left out. */
  predicate Solvent(r: Run) {
    && (!Dead(r.w.st) ==> Covered(r.w.st) && r.unjournaled == [])
    && (r.entered ==> Journals(r))
  }

  /** A dead run is past the loop and stays as it is. */
  lemma DeadStays(c: Config, sh: Shared, r: Run, m: Move)
    requires Enabled(c, sh, r, m) && CalmAt(r.pc, r.resumed, r.w.st) && Dead(r.w.st)
    ensures Dead(Step(c, sh, r, m).1.w.st) && Step(c, sh, r, m).1.entered == r.entered
  {
    if m.Resumption? {
      DeadReturns(FoldAll(r.w, m.folds), r.directive, m.children);
    }
  }

  lemma DeadReturns(w: Work, directive: Option<seq<Decision>>, children: map<CallId, Child>)
    requires Dead(w.st)
    ensures ResumeRun(w, directive, children) == Return(w)
  {
  }

  /** The moves that leave something out of the journal leave a dead run. */
  lemma LosersAreDead(c: Config, sh: Shared, r: Run, m: Move)
    requires Enabled(c, sh, r, m) && CalmAt(r.pc, r.resumed, r.w.st) && (m.ChainFail? || m.CommitThrow?)
    ensures Dead(Step(c, sh, r, m).1.w.st) && Step(c, sh, r, m).1.entered == r.entered
  {
  }

  lemma PlusNothing(r: Run)
    requires r.unjournaled == []
    ensures Covered(r.w.st) <==> Journals(r)
  {
  }

  lemma BooksStayCovered(r: Run, m: Move, r': Run)
    requires BooksMove(r, m, r') && !m.ChainFail? && !m.CommitThrow? && Covered(r.w.st) && r.unjournaled == []
    ensures Covered(r'.w.st) && r'.unjournaled == []
  {
    PlusNothing(r);
    BooksKeepJournals(r, m, r');
    PlusNothing(r');
  }

  lemma LiveStaysSolvent(c: Config, r: Run, m: Move, r': Run)
    requires Effect(c, r, m, r') && !m.ChainFail? && !m.CommitThrow? && Covered(r.w.st) && r.unjournaled == []
    ensures Solvent(r')
  {
    EffectBooks(c, r, m, r');
    BooksStayCovered(r, m, r');
    PlusNothing(r');
  }

  lemma DeadIsSolvent(r: Run, r': Run)
    requires Dead(r'.w.st) && r'.entered == r.entered && (r.entered ==> Journals(r'))
    ensures Solvent(r')
  {
  }

  lemma MoveKeepsSolvent(c: Config, sh: Shared, r: Run, m: Move)
    requires Enabled(c, sh, r, m) && CalmAt(r.pc, r.resumed, r.w.st) && Solvent(r)
    ensures Solvent(Step(c, sh, r, m).1)
  {
    var r' := Step(c, sh, r, m).1;
    if !Dead(r.w.st) && !m.ChainFail? && !m.CommitThrow? {
      MoveHasEffect(c, sh, r, m);
      LiveStaysSolvent(c, r, m, r');
    } else {
      if Dead(r.w.st) {
        DeadStays(c, sh, r, m);
      } else {
        LosersAreDead(c, sh, r, m);
      }
      MoveKeepsAccounts(c, sh, r, m);
      DeadIsSolvent(r, r');
    }
  }

  // ---------------------------------------------------------------- executions

  /** Promises about a state: approvals pend only where the guard sees them; the journal increases; the
      per-model ledger sums to the total; the journal with its folds does so unless the run is dead. */
  datatype Promise = Promise(approvals: bool, journal: bool, models: bool, ledger: bool)

  const APPROVALS := Promise(true, false, false, false)
  const JOURNAL := Promise(false, true, false, false)
  const MODELS := Promise(false, false, true, false)
  const LEDGER := Promise(true, false, false, true)
  const ALL := Promise(true, true, true, true)

  ghost predicate Keeps(k: Promise, st: RunState) {
    && (k.approvals ==> Guarded(st))
    && (k.journal ==> Increasing(st.steps))
    && (k.models ==> Modelled(st))
    && (k.ledger ==> Dead(st) || Covered(st))
  }

  ghost predicate RunKept(k: Promise, r: Run) {
    && (k.approvals ==> CalmAt(r.pc, r.resumed, r.w.st) && CalmRequests(r.requests))
    && (k.journal ==> Numbered(r))
    && (k.models ==> Modelled(r.w.st))
    && (k.ledger ==> Solvent(r))
  }

  lemma RunKeptStep(k: Promise, c: Config, sh: Shared, r: Run, m: Move)
    requires Enabled(c, sh, r, m) && RunKept(k, r) && (k.ledger ==> k.approvals)
    ensures RunKept(k, Step(c, sh, r, m).1)
  {
    if k.approvals {
      MoveKeepsCalm(c, sh, r, m);
      RequestsGrow(c, sh, r, m);
    }
    if k.journal {
      MoveKeepsJournal(c, sh, r, m);
    }
    MoveKeepsAccounts(c, sh, r, m);
    if k.ledger {
      MoveKeepsSolvent(c, sh, r, m);
    }
  }

  ghost predicate TaskKept(k: Promise, task: Task) {
    match task
    case Created(_) => true
    case Live(r) => RunKept(k, r)
    case Over(last, _) => last.Some? ==> RunKept(k, last.value)
  }

  ghost predicate AgentKept(k: Promise, a: Agent) {
    (forall t | 0 <= t < |a.tasks| :: TaskKept(k, a.tasks[t])) && (forall st | st in a.delivered :: Keeps(k, st))
  }

  lemma NewRunFields(args: Args, ride: seq<Message>)
    ensures var r := NewRun(args, ride);
            var st := if args.input.Fresh? then FRESH else args.input.st;
            r.w == Work(st, st.messages, ZERO) && r.startUsage == st.usage && r.requests == [] && !r.entered &&
            r.unjournaled == [] && r.unaccounted == [] && r.resumed == args.input.Of? &&
            r.pc == if args.input.Fresh? then Seeding(ride + args.input.seed) else Opened
  {
  }

  lemma KeptAtStart(k: Promise, r: Run, st: RunState)
    requires r.w.st == st && Keeps(k, st) && r.requests == [] && !r.entered && r.unjournaled == []
    requires if r.resumed then r.pc == Opened else r.pc.Seeding? && Calm(st)
    ensures RunKept(k, r)
  {
  }

  lemma EmptyBooks(r: Run, z: Usage)
    requires z == ZERO && r.w.st.steps == [] && r.w.st.byModel == [] && r.w.st.usage == z && r.w.st.folded == z
    requires !r.entered && r.unjournaled == []
    ensures Solvent(r) && Modelled(r.w.st)
  {
    assert SumSteps(r.w.st.steps) == z && SumModels(r.w.st.byModel) == z;
    ZeroAgain(z);
  }

  lemma ZeroAgain(z: Usage)
    requires z == Usage(0, 0, 0)
    ensures Add(z, z) == z
  {
  }

  lemma NewFreshBooks(args: Args, ride: seq<Message>)
    requires args.input.Fresh?
    ensures Solvent(NewRun(args, ride)) && Modelled(NewRun(args, ride).w.st)
  {
    NewRunFields(args, ride);
    EmptyBooks(NewRun(args, ride), ZERO);
  }

  lemma EmptyQuiet(r: Run)
    requires r.pc.Seeding? && r.requests == [] && r.w.st.steps == [] && r.w.st.status.Running? && r.w.st.pending == []
    ensures CalmAt(r.pc, r.resumed, r.w.st) && Numbered(r) && CalmRequests(r.requests)
  {
  }

  lemma NewFreshQuiet(args: Args, ride: seq<Message>)
    requires args.input.Fresh?
    ensures var r := NewRun(args, ride); CalmAt(r.pc, r.resumed, r.w.st) && Numbered(r) && CalmRequests(r.requests)
  {
    NewRunFields(args, ride);
    EmptyQuiet(NewRun(args, ride));
  }

  lemma KeptParts(k: Promise, r: Run)
    requires Solvent(r) && Modelled(r.w.st)
    requires CalmAt(r.pc, r.resumed, r.w.st) && Numbered(r) && CalmRequests(r.requests)
    ensures RunKept(k, r)
  {
  }

  lemma NewFreshKept(k: Promise, args: Args, ride: seq<Message>)
    requires args.input.Fresh?
    ensures RunKept(k, NewRun(args, ride))
  {
    NewFreshBooks(args, ride);
    NewFreshQuiet(args, ride);
    KeptParts(k, NewRun(args, ride));
  }

  lemma NewResumeKept(k: Promise, args: Args, ride: seq<Message>)
    requires args.input.Of? && Keeps(k, args.input.st)
    ensures RunKept(k, NewRun(args, ride))
  {
    NewRunFields(args, ride);
    KeptAtStart(k, NewRun(args, ride), args.input.st);
  }

  lemma ReturnKeeps(k: Promise, r: Run)
    requires RunKept(k, r)
    ensures Keeps(k, r.w.st)
  {
  }

  /** A start that resumes a state resumes one that keeps the promises. */
  ghost predicate ResumesKept(k: Promise, c: Config, a: Agent, x: Action)
    requires Can(c, a, x)
  {
    x.Start? && a.tasks[x.t].args.input.Of? ==> Keeps(k, a.tasks[x.t].args.input.st)
  }

  lemma KeptReplaced(k: Promise, a: Agent, b: Agent, t: nat, task: Task)
    requires AgentKept(k, a) && t < |a.tasks| && b.tasks == a.tasks[t := task] && TaskKept(k, task)
    requires forall st | st in b.delivered :: Keeps(k, st)
    ensures AgentKept(k, b)
  {
    forall u | 0 <= u < |b.tasks|
      ensures TaskKept(k, b.tasks[u])
    {
      if u != t {
        assert b.tasks[u] == a.tasks[u];
      }
    }
  }

  lemma StartKept(k: Promise, c: Config, a: Agent, t: nat)
    requires Can(c, a, Start(t)) && ResumesKept(k, c, a, Start(t)) && AgentKept(k, a)
    ensures AgentKept(k, DoEnter(a, t))
  {
    var args := a.tasks[t].args;
    var b := DoEnter(a, t);
    assert TaskKept(k, b.tasks[t]) by {
      if b.tasks[t].Live? {
        if args.input.Fresh? {
          NewFreshKept(k, args, a.sh.followUps);
        } else {
          NewResumeKept(k, args, []);
        }
      }
    }
    KeptReplaced(k, a, b, t, b.tasks[t]);
  }

  lemma AdvanceKept(k: Promise, c: Config, a: Agent, t: nat, m: Move)
    requires Can(c, a, Advance(t, m)) && AgentKept(k, a) && (k.ledger ==> k.approvals)
    ensures AgentKept(k, DoAdvance(c, a, t, m))
  {
    var b := DoAdvance(c, a, t, m);
    var r' := Step(c, a.sh, a.tasks[t].run, m).1;
    assert RunKept(k, r') by {
      assert TaskKept(k, a.tasks[t]);
      RunKeptStep(k, c, a.sh, a.tasks[t].run, m);
    }
    ReturnKeeps(k, r');
    KeptReplaced(k, a, b, t, b.tasks[t]);
  }

  lemma ApplyKept(k: Promise, c: Config, a: Agent, x: Action)
    requires Can(c, a, x) && ResumesKept(k, c, a, x) && AgentKept(k, a) && (k.ledger ==> k.approvals)
    ensures AgentKept(k, Apply(c, a, x))
  {
    match x {
      case Start(t) => StartKept(k, c, a, t);
      case Advance(t, m) => AdvanceKept(k, c, a, t, m);
      case Yield(t) =>
        assert TaskKept(k, a.tasks[t]);
        KeptReplaced(k, a, Apply(c, a, x), t, Over(Some(a.tasks[t].run), Returned));
      case Teardown(t) =>
        assert TaskKept(k, a.tasks[t]);
        KeptReplaced(k, a, Apply(c, a, x), t, Over(Some(a.tasks[t].run), Abandoned));
      case _ =>
    }
  }

  /** An execution that resumes only states that keep the promises, whichever agent handed them out. */
  ghost predicate KeptExecution(k: Promise, c: Config, xs: seq<Action>, states: seq<Agent>) {
    Execution(c, xs, states) && forall i | 0 <= i < |xs| :: ResumesKept(k, c, states[i], xs[i])
  }

  lemma {:induction false} ExecutionKept(k: Promise, c: Config, xs: seq<Action>, states: seq<Agent>, n: nat)
    requires KeptExecution(k, c, xs, states) && n < |states| && (k.ledger ==> k.approvals)
    ensures AgentKept(k, states[n])
  {
    if n > 0 {
      ExecutionKept(k, c, xs, states, n - 1);
      ApplyKept(k, c, states[n - 1], xs[n - 1]);
    }
  }

  // ---------------------------------------------------------------- main results

  predicate HasRun(task: Task) {
    task.Live? || (task.Over? && task.last.Some?)
  }

  /** The run of a generator that got that far, live or as it ended. */
  function RunOf(task: Task): Run
    requires HasRun(task)
  {
    if task.Live? then task.run else task.last.value
  }

  ghost predicate MadeRequest(task: Task, q: Request) {
    HasRun(task) && q in RunOf(task).requests
  }

  lemma CalmRequest(k: Promise, task: Task, q: Request)
    requires k.approvals && TaskKept(k, task) && MadeRequest(task, q)
    ensures q.st.pending == [] && !q.st.status.Failed? && !q.st.status.AwaitingApproval?
  {
    assert CalmRequests(RunOf(task).requests);
    assert Calm(q.st);
  }

  /** If resumed states have approvals pending only when suspended, aborted or failed, a provider is
      asked only when no approval is unresolved, and never by a failed or suspended run. */
  lemma RequestsWaitForApprovals(c: Config, xs: seq<Action>, states: seq<Agent>, n: nat, t: nat, q: Request)
    requires KeptExecution(APPROVALS, c, xs, states) && n < |states|
    requires t < |states[n].tasks| && MadeRequest(states[n].tasks[t], q)
    ensures q.st.pending == [] && !q.st.status.Failed? && !q.st.status.AwaitingApproval?
  {
    ExecutionKept(APPROVALS, c, xs, states, n);
    assert TaskKept(APPROVALS, states[n].tasks[t]);
    CalmRequest(APPROVALS, states[n].tasks[t], q);
  }

  /** If the journals of resumed states increase, so do those of all runs and states handed out. */
  lemma JournalsIncrease(c: Config, xs: seq<Action>, states: seq<Agent>, n: nat)
    requires KeptExecution(JOURNAL, c, xs, states) && n < |states|
    ensures forall st | st in states[n].delivered :: Increasing(st.steps)
    ensures forall t | 0 <= t < |states[n].tasks| && HasRun(states[n].tasks[t]) ::
              Increasing(RunOf(states[n].tasks[t]).w.st.steps)
  {
    ExecutionKept(JOURNAL, c, xs, states, n);
    forall st | st in states[n].delivered
      ensures Increasing(st.steps)
    {
      assert Keeps(JOURNAL, st);
    }
    forall t | 0 <= t < |states[n].tasks| && HasRun(states[n].tasks[t])
      ensures Increasing(RunOf(states[n].tasks[t]).w.st.steps)
    {
      assert TaskKept(JOURNAL, states[n].tasks[t]);
      assert Numbered(RunOf(states[n].tasks[t]));
    }
  }

  /** If the per-model ledgers of resumed states sum to their totals, so do those of all runs and
      states handed out, failed ones included. */
  lemma ModelLedgersSum(c: Config, xs: seq<Action>, states: seq<Agent>, n: nat)
    requires KeptExecution(MODELS, c, xs, states) && n < |states|
    ensures forall st | st in states[n].delivered :: st.usage == SumModels(st.byModel)
    ensures forall t | 0 <= t < |states[n].tasks| && HasRun(states[n].tasks[t]) ::
              RunOf(states[n].tasks[t]).w.st.usage == SumModels(RunOf(states[n].tasks[t]).w.st.byModel)
  {
    ExecutionKept(MODELS, c, xs, states, n);
    forall st | st in states[n].delivered
      ensures Modelled(st)
    {
      assert Keeps(MODELS, st);
    }
    forall t | 0 <= t < |states[n].tasks| && HasRun(states[n].tasks[t])
      ensures Modelled(RunOf(states[n].tasks[t]).w.st)
    {
      assert TaskKept(MODELS, states[n].tasks[t]);
    }
  }

  /** If resumed states that are not dead have everything journaled, so have those handed out; and every
      run that entered the loop has all but what its failing step charged. */
  lemma DeliveredBooks(c: Config, xs: seq<Action>, states: seq<Agent>, n: nat)
    requires KeptExecution(LEDGER, c, xs, states) && n < |states|
    ensures forall st | st in states[n].delivered :: Dead(st) || st.usage == Add(SumSteps(st.steps), st.folded)
    ensures forall t | 0 <= t < |states[n].tasks| && HasRun(states[n].tasks[t]) && RunOf(states[n].tasks[t]).entered ::
              var r := RunOf(states[n].tasks[t]);
              r.w.st.usage == Plus(Add(SumSteps(r.w.st.steps), r.w.st.folded), r.unjournaled)
  {
    ExecutionKept(LEDGER, c, xs, states, n);
    forall st | st in states[n].delivered
      ensures Dead(st) || Covered(st)
    {
      assert Keeps(LEDGER, st);
    }
    forall t | 0 <= t < |states[n].tasks| && HasRun(states[n].tasks[t]) && RunOf(states[n].tasks[t]).entered
      ensures Journals(RunOf(states[n].tasks[t]))
    {
      assert TaskKept(LEDGER, states[n].tasks[t]);
      assert Solvent(RunOf(states[n].tasks[t]));
    }
  }

  // ---------------------------------------------------------------- a run's share, in every execution

  ghost predicate TaskShares(task: Task) {
    HasRun(task) ==> Shares(RunOf(task))
  }

  lemma StartShares(task: Task)
    requires HasRun(task) ==>
               var r := RunOf(task); r.w.acc == ZERO && r.startUsage == r.w.st.usage && r.unaccounted == []
    ensures TaskShares(task)
  {
    if HasRun(task) {
      AddZero(RunOf(task).startUsage);
    }
  }

  lemma EnterStarts(a: Agent, t: nat)
    requires t < |a.tasks| && a.tasks[t].Created?
    ensures var task := DoEnter(a, t).tasks[t];
            HasRun(task) ==>
              var r := RunOf(task); r.w.acc == ZERO && r.startUsage == r.w.st.usage && r.unaccounted == []
  {
    var args := a.tasks[t].args;
    NewRunFields(args, if args.input.Fresh? then a.sh.followUps else []);
  }

  lemma EnterShares(a: Agent, t: nat)
    requires t < |a.tasks| && a.tasks[t].Created?
    ensures TaskShares(DoEnter(a, t).tasks[t])
  {
    EnterStarts(a, t);
    StartShares(DoEnter(a, t).tasks[t]);
  }

  lemma AdvanceShares(c: Config, a: Agent, t: nat, m: Move)
    requires Can(c, a, Advance(t, m)) && TaskShares(a.tasks[t])
    ensures TaskShares(DoAdvance(c, a, t, m).tasks[t])
  {
    MoveKeepsAccounts(c, a.sh, a.tasks[t].run, m);
  }

  lemma ApplyShares(c: Config, a: Agent, x: Action, t: nat)
    requires Can(c, a, x) && (t < |a.tasks| ==> TaskShares(a.tasks[t]))
    ensures t < |Apply(c, a, x).tasks| ==> TaskShares(Apply(c, a, x).tasks[t])
  {
    if x == Start(t) {
      EnterShares(a, t);
    } else if x.Advance? && x.t == t {
      AdvanceShares(c, a, t, x.m);
    }
  }

  lemma {:induction false} SharesThroughout(c: Config, xs: seq<Action>, states: seq<Agent>, n: nat, t: nat)
    requires Execution(c, xs, states) && n < |states|
    ensures t < |states[n].tasks| ==> TaskShares(states[n].tasks[t])
  {
    if n > 0 {
      SharesThroughout(c, xs, states, n - 1, t);
      ApplyShares(c, states[n - 1], xs[n - 1], t);
    }
  }

  /** At every loop head of every execution the run total is what the run began with plus its
      accumulator, whatever state was resumed; and with the ledgers of resumed states the run's agree. */
  lemma LoopHeadShares(c: Config, xs: seq<Action>, states: seq<Agent>, n: nat, t: nat)
    requires Execution(c, xs, states) && n < |states|
    requires t < |states[n].tasks| && states[n].tasks[t].Live? && states[n].tasks[t].run.pc.LoopTop?
    ensures var r := states[n].tasks[t].run;
            && r.w.st.usage == Add(r.startUsage, r.w.acc)
            && (KeptExecution(MODELS, c, xs, states) ==> r.w.st.usage == SumModels(r.w.st.byModel))
            && (KeptExecution(LEDGER, c, xs, states) ==> r.w.st.usage == Add(SumSteps(r.w.st.steps), r.w.st.folded))
  {
    SharesThroughout(c, xs, states, n, t);
    if KeptExecution(MODELS, c, xs, states) {
      ModelLedgersSum(c, xs, states, n);
      assert HasRun(states[n].tasks[t]);
    }
    if KeptExecution(LEDGER, c, xs, states) {
      ExecutionKept(LEDGER, c, xs, states, n);
      assert TaskKept(LEDGER, states[n].tasks[t]);
    }
  }

  /** Action `i` ends run `t` by a failed chain that spent `spent` on its truncated call. */
  predicate Truncates(xs: seq<Action>, i: nat, t: nat, spent: Usage) {
    i < |xs| && xs[i].Advance? && xs[i].t == t && xs[i].m.ChainFail? && xs[i].m.spent == spent && spent.total != 0
  }

  /** The run ended, or is past its loop, with `lost` left out of its accumulator. */
  predicate Ended(task: Task, lost: seq<Usage>) {
    HasRun(task) && (task.Live? ==> Ending(task.run.pc)) && RunOf(task).unaccounted == lost
  }

  lemma EndedStays(c: Config, a: Agent, x: Action, t: nat, lost: seq<Usage>)
    requires Can(c, a, x) && t < |a.tasks| && Ended(a.tasks[t], lost)
    ensures t < |Apply(c, a, x).tasks| && Ended(Apply(c, a, x).tasks[t], lost)
  {
    if x.Advance? && x.t == t {
      MoveHasEffect(c, a.sh, a.tasks[t].run, x.m);
    }
  }

  lemma TruncatedEnds(c: Config, a: Agent, t: nat, model: string, spent: Usage)
    requires Can(c, a, Advance(t, ChainFail(model, spent))) && spent.total != 0 && TaskShares(a.tasks[t])
    ensures Ended(Apply(c, a, Advance(t, ChainFail(model, spent))).tasks[t], [spent])
  {
    MoveHasEffect(c, a.sh, a.tasks[t].run, ChainFail(model, spent));
    assert [] + [spent] == [spent];
  }

  lemma {:induction false} TruncatedStays(
      c: Config, xs: seq<Action>, states: seq<Agent>, i: nat, n: nat, t: nat, spent: Usage)
    requires Execution(c, xs, states) && i < n < |states| && Truncates(xs, i, t, spent)
    ensures t < |states[n].tasks| && Ended(states[n].tasks[t], [spent])
  {
    if n == i + 1 {
      SharesThroughout(c, xs, states, i, t);
      TruncatedEnds(c, states[i], t, xs[i].m.model, spent);
    } else {
      TruncatedStays(c, xs, states, i, n - 1, t, spent);
      EndedStays(c, states[n - 1], xs[n - 1], t, [spent]);
    }
  }

  /** Only a failed chain leaves anything out of the accumulator. */
  lemma OthersAccount(c: Config, a: Agent, x: Action, t: nat)
    requires Can(c, a, x) && t < |Apply(c, a, x).tasks|
    requires x.Advance? && x.t == t && x.m.ChainFail? ==> x.m.spent.total == 0
    requires t < |a.tasks| && HasRun(a.tasks[t]) ==> RunOf(a.tasks[t]).unaccounted == []
    ensures HasRun(Apply(c, a, x).tasks[t]) ==> RunOf(Apply(c, a, x).tasks[t]).unaccounted == []
  {
    if x.Advance? && x.t == t {
      MoveHasEffect(c, a.sh, a.tasks[t].run, x.m);
      EffectBooks(c, a.tasks[t].run, x.m, Step(c, a.sh, a.tasks[t].run, x.m).1);
    }
  }

  lemma {:induction false} NeverTruncated(c: Config, xs: seq<Action>, states: seq<Agent>, n: nat, t: nat)
    requires Execution(c, xs, states) && n < |states| && t < |states[n].tasks| && HasRun(states[n].tasks[t])
    requires forall i: nat, spent | i < n :: !Truncates(xs, i, t, spent)
    ensures RunOf(states[n].tasks[t]).unaccounted == []
  {
    if n > 0 {
      var a, x := states[n - 1], xs[n - 1];
      if t < |a.tasks| && HasRun(a.tasks[t]) {
        NeverTruncated(c, xs, states, n - 1, t);
      }
      assert x.Advance? && x.t == t && x.m.ChainFail? ==> !Truncates(xs, n - 1, t, x.m.spent);
      OthersAccount(c, a, x, t);
    }
  }

  /** In every execution, from a failed chain to its end a run's total exceeds what the run began with
      plus its accumulator by exactly the truncated call. */
  lemma FailedChainGap(c: Config, xs: seq<Action>, states: seq<Agent>, i: nat, n: nat, t: nat, spent: Usage)
    requires Execution(c, xs, states) && i < n < |states| && Truncates(xs, i, t, spent)
    ensures t < |states[n].tasks| && HasRun(states[n].tasks[t])
    ensures var r := RunOf(states[n].tasks[t]); r.w.st.usage == Add(Add(r.startUsage, r.w.acc), spent)
  {
    TruncatedStays(c, xs, states, i, n, t, spent);
    SharesThroughout(c, xs, states, n, t);
    var r := RunOf(states[n].tasks[t]);
    PlusOne(Add(r.startUsage, r.w.acc), spent);
  }

  /** So in every execution the total of a run is what it began with plus its accumulator exactly when
      no failed chain of it spent tokens. */
  lemma SharesExactly(c: Config, xs: seq<Action>, states: seq<Agent>, n: nat, t: nat)
    requires Execution(c, xs, states) && n < |states| && t < |states[n].tasks| && HasRun(states[n].tasks[t])
    ensures var r := RunOf(states[n].tasks[t]);
            r.w.st.usage == Add(r.startUsage, r.w.acc) <==>
            forall i: nat, spent | i < n :: !Truncates(xs, i, t, spent)
  {
    if i: nat, spent :| i < n && Truncates(xs, i, t, spent) {
      FailedChainGap(c, xs, states, i, n, t, spent);
    } else {
      NeverTruncated(c, xs, states, n, t);
      SharesThroughout(c, xs, states, n, t);
    }
  }

  // ---------------------------------------------------------------- failed runs

  /** What a run started from the failed state `st` without deciding everything is, to its end. */
  ghost predicate Turned(r: Run, st: RunState, directive: Option<seq<Decision>>) {
    && r.requests == [] && r.w.st.status.Failed? && r.w.st.steps == st.steps && r.w.st.usage == st.usage
    && (Ending(r.pc) || (r.pc.Opened? && r.resumed && r.w.st == st && r.directive == directive))
  }

  lemma {:induction false} DecisionsKeepBooks(w: Work, pending: seq<Approval>, ds: seq<Decision>)
    ensures var st := DecideAll(w, pending, ds).w.st;
            st.status == w.st.status && st.steps == w.st.steps && st.usage == w.st.usage
  {
    if pending != [] {
      DecisionsKeepBooks(w, pending[..|pending| - 1], ds);
    }
  }

  lemma TurnedAway(w: Work, directive: Option<seq<Decision>>, children: map<CallId, Child>)
    requires w.st.status.Failed? && !Decides(directive, w.st.pending)
    ensures !Dispatches(w, directive)
    ensures var o := ResumeRun(w, directive, children);
            o.Return? && o.w.st.status.Failed? && o.w.st.steps == w.st.steps && o.w.st.usage == w.st.usage
  {
    if directive.Some? && w.st.pending != [] {
      StillUncovered(w, w.st.pending, directive.value);
      DecisionsKeepBooks(w, w.st.pending, directive.value);
    }
  }

  lemma TurnedStep(c: Config, sh: Shared, r: Run, m: Move, st: RunState, directive: Option<seq<Decision>>)
    requires Enabled(c, sh, r, m) && Turned(r, st, directive) && !Decides(directive, st.pending)
    ensures Turned(Step(c, sh, r, m).1, st, directive)
  {
    if m.Resumption? {
      TurnedResumption(c, sh, r, m, st, directive);
    } else {
      assert m.Finish?;
    }
  }

  lemma TurnedResumption(c: Config, sh: Shared, r: Run, m: Move, st: RunState, directive: Option<seq<Decision>>)
    requires Enabled(c, sh, r, m) && Turned(r, st, directive) && !Decides(directive, st.pending) && m.Resumption?
    ensures Turned(Step(c, sh, r, m).1, st, directive)
  {
    TurnedAway(r.w, directive, m.children);
    assert m.folds == [] && FoldAll(r.w, m.folds) == r.w;
  }

  lemma TurnedAtStart(a: Agent, t: nat, st: RunState, directive: Option<seq<Decision>>)
    requires t < |a.tasks| && a.tasks[t].Created? && a.tasks[t].args.input == Of(st, directive) && st.status.Failed?
    ensures var task := DoEnter(a, t).tasks[t]; !task.Created? && (HasRun(task) ==> Turned(RunOf(task), st, directive))
  {
    NewRunFields(a.tasks[t].args, []);
  }

  lemma TurnedAction(c: Config, a: Agent, x: Action, t: nat, st: RunState, directive: Option<seq<Decision>>)
    requires Can(c, a, x) && t < |a.tasks| && !a.tasks[t].Created? && !Decides(directive, st.pending)
    requires HasRun(a.tasks[t]) ==> Turned(RunOf(a.tasks[t]), st, directive)
    ensures var b := Apply(c, a, x);
            t < |b.tasks| && !b.tasks[t].Created? && (HasRun(b.tasks[t]) ==> Turned(RunOf(b.tasks[t]), st, directive))
  {
    if x.Advance? && x.t == t {
      TurnedStep(c, a.sh, a.tasks[t].run, x.m, st, directive);
    }
  }

  lemma {:induction false} TurnedThroughout(
      c: Config, xs: seq<Action>, states: seq<Agent>, i: nat, n: nat, t: nat, st: RunState,
      directive: Option<seq<Decision>>)
    requires Execution(c, xs, states) && i < n < |states| && xs[i] == Start(t)
    requires states[i].tasks[t].args.input == Of(st, directive) && st.status.Failed? && !Decides(directive, st.pending)
    ensures t < |states[n].tasks| && !states[n].tasks[t].Created?
    ensures HasRun(states[n].tasks[t]) ==> Turned(RunOf(states[n].tasks[t]), st, directive)
  {
    if n == i + 1 {
      TurnedAtStart(states[i], t, st, directive);
    } else {
      TurnedThroughout(c, xs, states, i, n - 1, t, st, directive);
      TurnedAction(c, states[n - 1], xs[n - 1], t, st, directive);
    }
  }

  /** In every execution a run started from a failed state that its directive does not decide completely
      makes no request, journals no step, spends nothing and stays failed, to its end. */
  lemma FailedRunNeverRuns(
      c: Config, xs: seq<Action>, states: seq<Agent>, i: nat, n: nat, t: nat, st: RunState,
      directive: Option<seq<Decision>>)
    requires Execution(c, xs, states) && i < n < |states| && xs[i] == Start(t)
    requires states[i].tasks[t].args.input == Of(st, directive) && st.status.Failed? && !Decides(directive, st.pending)
    ensures t < |states[n].tasks|
    ensures HasRun(states[n].tasks[t]) ==>
              var r := RunOf(states[n].tasks[t]);
              r.requests == [] && r.w.st.steps == st.steps && r.w.st.usage == st.usage && r.w.st.status.Failed?
  {
    TurnedThroughout(c, xs, states, i, n, t, st, directive);
  }
}
