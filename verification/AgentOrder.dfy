/** What holds in every execution of an agent, whatever callers, providers and tools do: message and
    compaction conservation, the event grammar, bounded runs, and which exits leak resources. */
module AgentOrder {
  import opened Options
  import opened Transcript
  import opened RunStates
  import opened RunLoop
  import opened RunEffects
  import opened RunEvents
  import opened RunBooks
  import opened RunTermination
  import opened AgentRuns

  // ---------------------------------------------------------------- queues

  function Fated(fates: seq<Fate>): seq<Message> {
    if fates == [] then [] else Fated(fates[..|fates| - 1]) + fates[|fates| - 1].ms
  }

  function Ridden(rides: seq<Ride>): seq<Message> {
    if rides == [] then [] else Ridden(rides[..|rides| - 1]) + rides[|rides| - 1].ms
  }

  lemma FatedAppend(fates: seq<Fate>, f: Fate)
    ensures Fated(fates + [f]) == Fated(fates) + f.ms
  {
    assert (fates + [f])[..|fates|] == fates;
  }

  lemma RiddenAppend(rides: seq<Ride>, r: Ride)
    ensures Ridden(rides + [r]) == Ridden(rides) + r.ms
  {
    assert (rides + [r])[..|rides|] == rides;
  }

  /** Every steered message is, in order, drained into one step, dropped at one run's entry, or still
      queued; every follow-up is, in order, taken by one fresh start or still queued; every
      compaction asked for is settled once or still queued. */
  ghost predicate Conserved(a: Agent) {
    Fated(a.fates) + a.sh.steer == a.steered &&
    Ridden(a.rides) + a.sh.followUps == a.queued &&
    Distinct(a.sh.settled + a.sh.compacts) &&
    forall id: nat :: id in a.sh.settled + a.sh.compacts <==> id < a.asked
  }

  lemma StartSettles(a: Agent, t: nat)
    requires t < |a.tasks| && a.tasks[t].Created?
    ensures DoEnter(a, t).sh.settled + DoEnter(a, t).sh.compacts == a.sh.settled + a.sh.compacts
    ensures DoEnter(a, t).asked == a.asked && DoEnter(a, t).steered == a.steered && DoEnter(a, t).queued == a.queued
  {
    assert (a.sh.settled + a.sh.compacts) + [] == a.sh.settled + a.sh.compacts;
  }

  lemma StartLogs(a: Agent, t: nat)
    requires t < |a.tasks| && a.tasks[t].Created? && !a.sh.inFlight
    ensures var b := DoEnter(a, t);
            Fated(b.fates) + b.sh.steer == Fated(a.fates) + a.sh.steer &&
            Ridden(b.rides) + b.sh.followUps == Ridden(a.rides) + a.sh.followUps
  {
    var b := DoEnter(a, t);
    var args := a.tasks[t].args;
    var ms := if args.input.Fresh? then a.sh.followUps else [];
    var ride := if ValidBudget(args.budget) then RodeInto(t, ms) else Lost(t, ms);
    assert b.fates == a.fates + [Dropped(a.sh.steer)] && b.rides == a.rides + [ride] && b.sh.steer == [];
    assert b.sh.followUps == if args.input.Fresh? then [] else a.sh.followUps;
    FatedAppend(a.fates, Dropped(a.sh.steer));
    RiddenAppend(a.rides, ride);
  }

  lemma StartConserved(a: Agent, t: nat)
    requires t < |a.tasks| && a.tasks[t].Created? && Conserved(a)
    ensures Conserved(DoEnter(a, t))
  {
    if !a.sh.inFlight {
      StartSettles(a, t);
      StartLogs(a, t);
    }
  }

  lemma LeaveConserved(sh: Shared, r: Run)
    ensures Leave(sh, r).settled + Leave(sh, r).compacts == sh.settled + sh.compacts
    ensures Leave(sh, r).steer == sh.steer && Leave(sh, r).followUps == sh.followUps
  {
    assert (sh.settled + sh.compacts) + [] == sh.settled + sh.compacts;
  }

  /** The logs and queues of both agents hold the same messages and compactions. */
  ghost predicate SameGoods(a: Agent, b: Agent) {
    && Fated(b.fates) + b.sh.steer == Fated(a.fates) + a.sh.steer && b.steered == a.steered
    && b.rides == a.rides && b.sh.followUps == a.sh.followUps && b.queued == a.queued
    && b.sh.settled + b.sh.compacts == a.sh.settled + a.sh.compacts && b.asked == a.asked
  }

  lemma SameGoodsConserved(a: Agent, b: Agent)
    requires SameGoods(a, b) && Conserved(a)
    ensures Conserved(b)
  {
  }

  lemma AdvanceSameGoods(c: Config, a: Agent, t: nat, m: Move)
    requires Can(c, a, Advance(t, m))
    ensures SameGoods(a, DoAdvance(c, a, t, m))
  {
    var r := a.tasks[t].run;
    AdvanceShared(c, a.sh, r, m);
    var p := Step(c, a.sh, r, m);
    LeaveConserved(p.0, p.1);
    FatedAppend(a.fates, Drained(t, a.sh.steer));
  }

  lemma AdvanceConserved(c: Config, a: Agent, t: nat, m: Move)
    requires Can(c, a, Advance(t, m)) && Conserved(a)
    ensures Conserved(DoAdvance(c, a, t, m))
  {
    AdvanceSameGoods(c, a, t, m);
    SameGoodsConserved(a, DoAdvance(c, a, t, m));
  }

  lemma ApplyConserved(c: Config, a: Agent, x: Action)
    requires Can(c, a, x) && Conserved(a)
    ensures Conserved(Apply(c, a, x))
  {
    match x {
      case Create(args) =>
      case Start(t) => StartConserved(a, t);
      case Advance(t, m) => AdvanceConserved(c, a, t, m);
      case Yield(t) => LeaveConserved(a.sh, a.tasks[t].run);
      case Teardown(t) => LeaveConserved(a.sh, a.tasks[t].run);
      case Steer(ms) => assert Fated(a.fates) + (a.sh.steer + ms) == (Fated(a.fates) + a.sh.steer) + ms;
      case FollowUp(ms) => assert Ridden(a.rides) + (a.sh.followUps + ms) == (Ridden(a.rides) + a.sh.followUps) + ms;
      case Abort(policy) =>
      case Compact =>
        if a.sh.active {
          var ids := a.sh.settled + a.sh.compacts;
          assert a.sh.settled + (a.sh.compacts + [a.asked]) == ids + [a.asked];
          assert a.asked !in ids;
          assert Distinct(ids + [a.asked]);
        }
      case ParentAbort(t) =>
    }
  }

  /** Messages and compactions are conserved in every execution; an idle agent has settled every
      compaction exactly once. */
  lemma {:induction false} QueuesConserved(c: Config, xs: seq<Action>, states: seq<Agent>, n: nat)
    requires Execution(c, xs, states) && n < |states|
    ensures Conserved(states[n])
    ensures !states[n].sh.inFlight ==>
              Distinct(states[n].sh.settled) && forall id: nat :: id in states[n].sh.settled <==> id < states[n].asked
  {
    if n > 0 {
      QueuesConserved(c, xs, states, n - 1);
      ApplyConserved(c, states[n - 1], xs[n - 1]);
    }
    SingleFlight(c, xs, states, n);
    assert states[n].sh.compacts == [] ==> states[n].sh.settled + states[n].sh.compacts == states[n].sh.settled;
  }

  /** A batch drained at a loop head lands at the end of the working buffer and of the run state. */
  lemma DrainAppends(c: Config, a: Agent, t: nat)
    requires Can(c, a, Advance(t, Top)) && DoAdvance(c, a, t, Top).fates != a.fates
    ensures var b := DoAdvance(c, a, t, Top);
            b.fates == a.fates + [Drained(t, a.sh.steer)] && b.sh.steer == [] && b.tasks[t].Live? &&
            b.tasks[t].run.w.buf == a.tasks[t].run.w.buf + a.sh.steer &&
            b.tasks[t].run.w.st.messages == a.tasks[t].run.w.st.messages + a.sh.steer
  {
  }

  lemma FatesGrow(c: Config, a: Agent, x: Action)
    requires Can(c, a, x)
    ensures a.fates <= Apply(c, a, x).fates
    ensures |Apply(c, a, x).fates| <= |a.fates| + 1
    ensures |a.fates| < |Apply(c, a, x).fates| && Apply(c, a, x).fates[|a.fates|].Drained? ==>
              x == Advance(Apply(c, a, x).fates[|a.fates|].task, Top)
  {
  }

  lemma {:induction false} FatesOnlyGrow(c: Config, xs: seq<Action>, states: seq<Agent>, m: nat, n: nat)
    requires Execution(c, xs, states) && m <= n < |states|
    ensures states[m].fates <= states[n].fates
  {
    if m < n {
      FatesOnlyGrow(c, xs, states, m, n - 1);
      FatesGrow(c, states[n - 1], xs[n - 1]);
    }
  }

  /** At step `i` the `k`-th batch, `ms`, is appended to buffer and state of run `t`. */
  ghost predicate DeliveredAt(
      xs: seq<Action>, states: seq<Agent>, i: nat, k: nat, t: nat, ms: seq<Message>)
  {
    && i < |xs| && |states| == |xs| + 1 && xs[i] == Advance(t, Top)
    && |states[i].fates| == k && |states[i + 1].fates| == k + 1 && states[i].sh.steer == ms
    && t < |states[i].tasks| && t < |states[i + 1].tasks| && states[i].tasks[t].Live? && states[i + 1].tasks[t].Live?
    && states[i + 1].tasks[t].run.w.buf == states[i].tasks[t].run.w.buf + ms
    && states[i + 1].tasks[t].run.w.st.messages == states[i].tasks[t].run.w.st.messages + ms
  }

  lemma {:induction false} SteeringDeliveredOnce(
      c: Config, xs: seq<Action>, states: seq<Agent>, n: nat, k: nat) returns (i: nat)
    requires Execution(c, xs, states) && n < |states| && k < |states[n].fates| && states[n].fates[k].Drained?
    ensures i < n && DeliveredAt(xs, states, i, k, states[n].fates[k].task, states[n].fates[k].ms)
  {
    FatesGrow(c, states[n - 1], xs[n - 1]);
    if k < |states[n - 1].fates| {
      i := SteeringDeliveredOnce(c, xs, states, n - 1, k);
    } else {
      i := n - 1;
      DrainAppends(c, states[i], xs[i].t);
    }
  }

  lemma DeliveredApart(
      c: Config, xs: seq<Action>, states: seq<Agent>, i: nat, j: nat, k: nat, t: nat, ms: seq<Message>)
    requires Execution(c, xs, states) && DeliveredAt(xs, states, i, k, t, ms) && DeliveredAt(xs, states, j, k, t, ms)
    ensures i == j
  {
    if i < j {
      FatesOnlyGrow(c, xs, states, i + 1, j);
    } else if j < i {
      FatesOnlyGrow(c, xs, states, j + 1, i);
    }
  }

  /** In every execution each batch logged as drained into a run was appended to that run's buffer and
      state at one step, and at no other. */
  lemma SteeringDelivered(c: Config, xs: seq<Action>, states: seq<Agent>, n: nat, k: nat)
    requires Execution(c, xs, states) && n < |states| && k < |states[n].fates| && states[n].fates[k].Drained?
    ensures var f := states[n].fates[k];
            exists i: nat :: i < n && DeliveredAt(xs, states, i, k, f.task, f.ms) &&
                             forall j: nat :: DeliveredAt(xs, states, j, k, f.task, f.ms) ==> j == i
  {
    var f := states[n].fates[k];
    var i := SteeringDeliveredOnce(c, xs, states, n, k);
    forall j: nat | DeliveredAt(xs, states, j, k, f.task, f.ms)
      ensures j == i
    {
      DeliveredApart(c, xs, states, i, j, k, f.task, f.ms);
    }
  }

  /** At step `i` generator `ride.task` starts and takes the queue: into its own run, or nowhere if its
      budget is malformed. A resumed run takes nothing. */
  ghost predicate TakenAt(xs: seq<Action>, states: seq<Agent>, i: nat, k: nat, ride: Ride) {
    && i < |xs| && |states| == |xs| + 1 && xs[i] == Start(ride.task) && !states[i].sh.inFlight
    && |states[i].rides| == k && |states[i + 1].rides| == k + 1
    && ride.task < |states[i].tasks| && ride.task < |states[i + 1].tasks| && states[i].tasks[ride.task].Created?
    && var args := states[i].tasks[ride.task].args;
       && ride.ms == (if args.input.Fresh? then states[i].sh.followUps else [])
       && states[i + 1].sh.followUps == (if args.input.Fresh? then [] else states[i].sh.followUps)
       && (ride.RodeInto? <==> ValidBudget(args.budget))
       && states[i + 1].tasks[ride.task] ==
          if ride.RodeInto? then Live(NewRun(args, ride.ms)) else Over(None, BadBudget)
  }

  lemma RidesGrow(c: Config, a: Agent, x: Action)
    requires Can(c, a, x)
    ensures a.rides <= Apply(c, a, x).rides
    ensures |Apply(c, a, x).rides| <= |a.rides| + 1
    ensures |a.rides| < |Apply(c, a, x).rides| ==>
              x == Start(Apply(c, a, x).rides[|a.rides|].task) && !a.sh.inFlight
  {
  }

  lemma {:induction false} RidesOnlyGrow(c: Config, xs: seq<Action>, states: seq<Agent>, m: nat, n: nat)
    requires Execution(c, xs, states) && m <= n < |states|
    ensures states[m].rides <= states[n].rides
  {
    if m < n {
      RidesOnlyGrow(c, xs, states, m, n - 1);
      RidesGrow(c, states[n - 1], xs[n - 1]);
    }
  }

  lemma StartTakes(c: Config, xs: seq<Action>, states: seq<Agent>, i: nat)
    requires Execution(c, xs, states) && i < |xs| && xs[i].Start? && !states[i].sh.inFlight
    ensures |states[i + 1].rides| == |states[i].rides| + 1
    ensures TakenAt(xs, states, i, |states[i].rides|, states[i + 1].rides[|states[i].rides|])
  {
  }

  lemma {:induction false} FollowUpsTakenOnce(
      c: Config, xs: seq<Action>, states: seq<Agent>, n: nat, k: nat) returns (i: nat)
    requires Execution(c, xs, states) && n < |states| && k < |states[n].rides|
    ensures i < n && TakenAt(xs, states, i, k, states[n].rides[k])
  {
    RidesGrow(c, states[n - 1], xs[n - 1]);
    if k < |states[n - 1].rides| {
      i := FollowUpsTakenOnce(c, xs, states, n - 1, k);
    } else {
      i := n - 1;
      StartTakes(c, xs, states, i);
    }
  }

  /** In every execution each entry of the ride log has one start, and no other, that took the queue as
      it then was into its own run, or lost it exactly because its budget was malformed. */
  lemma FollowUpsTaken(c: Config, xs: seq<Action>, states: seq<Agent>, n: nat, k: nat)
    requires Execution(c, xs, states) && n < |states| && k < |states[n].rides|
    ensures exists i: nat :: i < n && TakenAt(xs, states, i, k, states[n].rides[k]) &&
                             forall j: nat :: TakenAt(xs, states, j, k, states[n].rides[k]) ==> j == i
  {
    var i := FollowUpsTakenOnce(c, xs, states, n, k);
    forall j: nat | TakenAt(xs, states, j, k, states[n].rides[k])
      ensures j == i
    {
      if i < j {
        RidesOnlyGrow(c, xs, states, i + 1, j);
      } else if j < i {
        RidesOnlyGrow(c, xs, states, j + 1, i);
      }
    }
  }

  predicate SeedingTask(task: Task) {
    task.Live? && task.run.pc.Seeding?
  }

  lemma SeedingBefore(c: Config, a: Agent, x: Action, t: nat)
    requires Can(c, a, x) && t < |Apply(c, a, x).tasks| && SeedingTask(Apply(c, a, x).tasks[t]) && x != Start(t)
    ensures t < |a.tasks| && Apply(c, a, x).tasks[t] == a.tasks[t]
  {
    if x.Advance? && x.t == t {
      MoveHasEffect(c, a.sh, a.tasks[t].run, x.m);
      NeverSeedsAgain(c, a.tasks[t].run, x.m, Step(c, a.sh, a.tasks[t].run, x.m).1);
    }
  }

  /** A run that is still seeding is as it was opened, with the follow-ups queued at its start. */
  lemma {:induction false} SeedingSince(
      c: Config, xs: seq<Action>, states: seq<Agent>, n: nat, t: nat) returns (i: nat)
    requires Execution(c, xs, states) && n < |states| && t < |states[n].tasks| && SeedingTask(states[n].tasks[t])
    ensures i < n && TakenAt(xs, states, i, |states[i].rides|, RodeInto(t, states[i].sh.followUps))
    ensures states[i].tasks[t].args.input.Fresh?
    ensures states[n].tasks[t] == Live(NewRun(states[i].tasks[t].args, states[i].sh.followUps))
  {
    if xs[n - 1] == Start(t) {
      i := n - 1;
      StartTakes(c, xs, states, i);
    } else {
      SeedingBefore(c, states[n - 1], xs[n - 1], t);
      i := SeedingSince(c, xs, states, n - 1, t);
    }
  }

  ghost predicate SeededWith(ms: seq<Message>, system: string, queue: seq<Message>, input: seq<Message>) {
    ms == (if system == "" then [] else [System(system)]) + queue + input
  }

  lemma SeedingWrites(sh: Shared, args: Args, ride: seq<Message>, system: string)
    requires args.input.Fresh?
    ensures var w := DoSeed(sh, NewRun(args, ride), system).1.w;
            SeededWith(w.buf, system, ride, args.input.seed) && w.st.messages == w.buf
  {
    var head := if system == "" then [] else [System(system)];
    assert [] + (head + (ride + args.input.seed)) == head + ride + args.input.seed;
  }

  /** In every execution, when a fresh run is seeded its buffer and state are the system prompt, the
      follow-ups queued at its own start, and its input. */
  lemma FollowUpsRide(c: Config, xs: seq<Action>, states: seq<Agent>, n: nat, t: nat, system: string)
    requires Execution(c, xs, states) && n < |xs| && xs[n] == Advance(t, SeedDone(system))
    ensures t < |states[n + 1].tasks| && states[n + 1].tasks[t].Live?
    ensures exists i: nat :: i < n && TakenAt(xs, states, i, |states[i].rides|, RodeInto(t, states[i].sh.followUps)) &&
              var w := states[n + 1].tasks[t].run.w;
              states[i].tasks[t].args.input.Fresh? && w.st.messages == w.buf &&
              SeededWith(w.buf, system, states[i].sh.followUps, states[i].tasks[t].args.input.seed)
  {
    var i := SeedingSince(c, xs, states, n, t);
    var args, ride := states[i].tasks[t].args, states[i].sh.followUps;
    SeedingWrites(states[n].sh, args, ride, system);
    assert Step(c, states[n].sh, NewRun(args, ride), SeedDone(system)) ==
           DoSeed(states[n].sh, NewRun(args, ride), system);
  }

  // ---------------------------------------------------------------- per-run facts

  ghost predicate RunOrderly(c: Config, r: Run) {
    Spoken(r) && EnteredAt(r.pc, r.entered) && Bounded(c, r) && StatusKept(r) && (r.pc.Seeding? ==> !r.span)
  }

  ghost predicate TaskOrderly(c: Config, task: Task) {
    match task
    case Created(_) => true
    case Live(r) => RunOrderly(c, r) && !r.pc.Gone?
    case Over(last, how) => how.Returned? ==> last.Some? && Parse(last.value.events) == After
  }

  lemma RunOrderlyStep(c: Config, sh: Shared, r: Run, m: Move)
    requires Enabled(c, sh, r, m) && RunOrderly(c, r)
    ensures RunOrderly(c, Step(c, sh, r, m).1)
  {
    MoveKeepsGrammar(c, sh, r, m);
    EnteredStep(c, sh, r, m);
    MoveTerminates(c, sh, r, m);
    MoveKeepsStatus(c, sh, r, m);
    MoveHasEffect(c, sh, r, m);
    NeverSeedsAgain(c, r, m, Step(c, sh, r, m).1);
  }

  lemma NewRunOrderly(c: Config, args: Args, ride: seq<Message>)
    ensures RunOrderly(c, NewRun(args, ride)) && !NewRun(args, ride).pc.Gone?
  {
    ParseAppend([], AgentStart);
    assert [] + [AgentStart] == [AgentStart];
  }

  ghost predicate Orderly(c: Config, a: Agent) {
    forall t | 0 <= t < |a.tasks| :: TaskOrderly(c, a.tasks[t])
  }

  lemma ReplacedOrderly(c: Config, a: Agent, b: Agent, t: nat, task: Task)
    requires Orderly(c, a) && t < |a.tasks| && b.tasks == a.tasks[t := task] && TaskOrderly(c, task)
    ensures Orderly(c, b)
  {
    forall u | 0 <= u < |b.tasks|
      ensures TaskOrderly(c, b.tasks[u])
    {
      if u != t {
        assert b.tasks[u] == a.tasks[u];
      }
    }
  }

  lemma EnterOrderly(c: Config, a: Agent, t: nat)
    requires t < |a.tasks| && a.tasks[t].Created? && Orderly(c, a)
    ensures Orderly(c, DoEnter(a, t))
  {
    var args := a.tasks[t].args;
    NewRunOrderly(c, args, if args.input.Fresh? then a.sh.followUps else []);
    ReplacedOrderly(c, a, DoEnter(a, t), t, DoEnter(a, t).tasks[t]);
  }

  lemma AdvanceOrderly(c: Config, a: Agent, t: nat, m: Move)
    requires Can(c, a, Advance(t, m)) && Orderly(c, a)
    ensures Orderly(c, DoAdvance(c, a, t, m))
  {
    assert TaskOrderly(c, a.tasks[t]);
    RunOrderlyStep(c, a.sh, a.tasks[t].run, m);
    ReplacedOrderly(c, a, DoAdvance(c, a, t, m), t, DoAdvance(c, a, t, m).tasks[t]);
  }

  lemma ReturnOrderly(c: Config, a: Agent, t: nat)
    requires Can(c, a, Yield(t)) && Orderly(c, a)
    ensures Orderly(c, Apply(c, a, Yield(t)))
  {
    assert TaskOrderly(c, a.tasks[t]);
    ReplacedOrderly(c, a, Apply(c, a, Yield(t)), t, Over(Some(a.tasks[t].run), Returned));
  }

  lemma ApplyOrderly(c: Config, a: Agent, x: Action)
    requires Can(c, a, x) && Orderly(c, a)
    ensures Orderly(c, Apply(c, a, x))
  {
    match x {
      case Start(t) => EnterOrderly(c, a, t);
      case Advance(t, m) => AdvanceOrderly(c, a, t, m);
      case Yield(t) => ReturnOrderly(c, a, t);
      case Teardown(t) => ReplacedOrderly(c, a, Apply(c, a, x), t, Over(Some(a.tasks[t].run), Abandoned));
      case _ =>
    }
  }

  lemma {:induction false} ExecutionOrderly(c: Config, xs: seq<Action>, states: seq<Agent>, n: nat)
    requires Execution(c, xs, states) && n < |states|
    ensures Orderly(c, states[n])
  {
    if n > 0 {
      ExecutionOrderly(c, xs, states, n - 1);
      ApplyOrderly(c, states[n - 1], xs[n - 1]);
    }
  }

  /** Every run that returned produced a grammatical event stream. */
  lemma ReturnedStreamsGrammatical(c: Config, xs: seq<Action>, states: seq<Agent>, n: nat, t: nat)
    requires Execution(c, xs, states) && n < |states|
    requires t < |states[n].tasks| && states[n].tasks[t].Over? && states[n].tasks[t].how.Returned?
    ensures states[n].tasks[t].last.Some?
    ensures var es := states[n].tasks[t].last.value.events;
            |es| >= 2 && es[|es| - 1].AgentEnd? &&
            exists k: nat {:trigger Alternates(es[..|es| - 1], k)} :: Alternates(es[..|es| - 1], k)
  {
    ExecutionOrderly(c, xs, states, n);
    assert TaskOrderly(c, states[n].tasks[t]);
    ReturnedGrammar(states[n].tasks[t].last.value.events);
  }

  // ---------------------------------------------------------------- bounded runs

  function MovesOf(xs: seq<Action>, t: nat): nat {
    if xs == [] then 0
    else
      var x := xs[|xs| - 1];
      MovesOf(xs[..|xs| - 1], t) + (if x.Advance? && x.t == t then 1 else 0)
  }

  function MoveBound(c: Config): nat {
    c.stopAt * (2 * c.providers + 20) + 2 * c.providers + 15
  }

  function MovesLeft(c: Config, task: Task): nat {
    match task
    case Created(_) => MoveBound(c)
    case Live(r) => Rank(c, r)
    case Over(_, _) => 0
  }

  lemma NewRunRank(c: Config, args: Args, ride: seq<Message>)
    ensures Rank(c, NewRun(args, ride)) <= MoveBound(c)
  {
    var r := NewRun(args, ride);
    Distribute(LoopsLeft(c, |r.w.st.steps|), c.stopAt - LoopsLeft(c, |r.w.st.steps|), 2 * c.providers + 20);
  }

  /** No action gives a generator more moves than it had. */
  lemma MovesSpent(c: Config, a: Agent, x: Action, t: nat)
    requires Can(c, a, x) && Orderly(c, a) && t < |a.tasks|
    ensures t < |Apply(c, a, x).tasks|
    ensures MovesLeft(c, Apply(c, a, x).tasks[t]) + (if x.Advance? && x.t == t then 1 else 0) <=
            MovesLeft(c, a.tasks[t])
  {
    match x {
      case Start(u) =>
        var args := a.tasks[u].args;
        NewRunRank(c, args, if args.input.Fresh? then a.sh.followUps else []);
      case Advance(u, m) =>
        assert TaskOrderly(c, a.tasks[u]);
        MoveTerminates(c, a.sh, a.tasks[u].run, m);
      case _ =>
    }
  }

  /** Every run makes at most `MoveBound` moves: with a step-count stop condition each loop iteration
      either leaves the loop or journals one step. */
  lemma {:induction false} RunsAreBounded(c: Config, xs: seq<Action>, states: seq<Agent>, n: nat, t: nat)
    requires Execution(c, xs, states) && n < |states|
    ensures t < |states[n].tasks| ==> MovesOf(xs[..n], t) + MovesLeft(c, states[n].tasks[t]) <= MoveBound(c)
    ensures t >= |states[n].tasks| ==> MovesOf(xs[..n], t) == 0
  {
    if n > 0 {
      RunsAreBounded(c, xs, states, n - 1, t);
      ExecutionOrderly(c, xs, states, n - 1);
      assert xs[..n][..n - 1] == xs[..n - 1];
      if t < |states[n - 1].tasks| {
        MovesSpent(c, states[n - 1], xs[n - 1], t);
      }
    }
  }

  // ---------------------------------------------------------------- spend

  ghost predicate TaskThrifty(task: Task, most: nat) {
    match task
    case Created(_) => true
    case Live(r) => Thrifty(r, most)
    case Over(last, _) => last.Some? ==> Thrifty(last.value, most)
  }

  ghost predicate CheapAction(c: Config, a: Agent, x: Action, t: nat, most: nat)
    requires Can(c, a, x)
  {
    x.Advance? && x.t == t ==> Cheap(c, a.sh, a.tasks[t].run, x.m, most)
  }

  lemma AdvanceThrifty(c: Config, a: Agent, t: nat, m: Move, most: nat)
    requires Can(c, a, Advance(t, m)) && Orderly(c, a) && Cheap(c, a.sh, a.tasks[t].run, m, most)
    requires TaskThrifty(a.tasks[t], most)
    ensures TaskThrifty(DoAdvance(c, a, t, m).tasks[t], most)
  {
    assert TaskOrderly(c, a.tasks[t]);
    MoveKeepsSpend(c, a.sh, a.tasks[t].run, m, most);
  }

  lemma ApplyThrifty(c: Config, a: Agent, x: Action, t: nat, most: nat)
    requires Can(c, a, x) && Orderly(c, a) && CheapAction(c, a, x, t, most)
    requires t < |a.tasks| ==> TaskThrifty(a.tasks[t], most)
    ensures t < |Apply(c, a, x).tasks| ==> TaskThrifty(Apply(c, a, x).tasks[t], most)
  {
    if x.Advance? && x.t == t {
      AdvanceThrifty(c, a, t, x.m, most);
    }
  }

  /** With a token ceiling and steps of this run costing at most `most`, its total never exceeds the
      larger of its total at loop entry and the ceiling plus one step, whatever other runs spend. */
  lemma {:induction false} SpendBounded(
      c: Config, xs: seq<Action>, states: seq<Agent>, n: nat, t: nat, most: nat)
    requires Execution(c, xs, states) && n < |states|
    requires forall i | 0 <= i < n :: CheapAction(c, states[i], xs[i], t, most)
    ensures t < |states[n].tasks| ==> TaskThrifty(states[n].tasks[t], most)
  {
    if n > 0 {
      SpendBounded(c, xs, states, n - 1, t, most);
      ExecutionOrderly(c, xs, states, n - 1);
      ApplyThrifty(c, states[n - 1], xs[n - 1], t, most);
    }
  }

  // ---------------------------------------------------------------- cut runs

  /** In every execution, a run that the stop condition cuts ends failed exactly when it entered the
      loop running (or failed), or completed with an output that is rejected; else it keeps the
      status it entered with. */
  lemma CutRunsReported(c: Config, xs: seq<Action>, states: seq<Agent>, n: nat, t: nat, rejected: bool)
    requires Execution(c, xs, states) && n < |states| && t < |states[n].tasks| && states[n].tasks[t].Live?
    requires states[n].tasks[t].run.pc.LoopTop? && Stop(c, states[n].tasks[t].run.w.st)
    ensures var a := states[n];
            var r := a.tasks[t].run;
            var (sh, mid) := Step(c, a.sh, r, Top);
            mid.pc.Finalizing? &&
            Step(c, sh, mid, Finalize(rejected)).1.w.st.status ==
              if r.entryStatus.Running? || (r.entryStatus.Completed? && rejected) then Failed else r.entryStatus
  {
    ExecutionOrderly(c, xs, states, n);
    assert TaskOrderly(c, states[n].tasks[t]);
    CutRunReported(c, states[n].sh, states[n].tasks[t].run, rejected);
  }

  // ---------------------------------------------------------------- leaks

  function Num(b: bool): nat {
    if b then 1 else 0
  }

  /** Spans a task still holds open: a live run's own, or one left by a run that ended before it
      reached the guarded region. */
  function SpanOf(task: Task): nat {
    match task
    case Created(_) => 0
    case Live(r) => Num(r.span)
    case Over(None, _) => 0
    case Over(Some(r), _) => Num(r.span && !r.entered)
  }

  function ListenerOf(task: Task): nat {
    match task
    case Created(_) => 0
    case Live(r) => Num(r.listener)
    case Over(None, _) => 0
    case Over(Some(r), _) => Num(r.listener && !r.entered)
  }

  function Spans(tasks: seq<Task>): nat {
    if tasks == [] then 0 else Spans(tasks[..|tasks| - 1]) + SpanOf(tasks[|tasks| - 1])
  }

  function Listeners(tasks: seq<Task>): nat {
    if tasks == [] then 0 else Listeners(tasks[..|tasks| - 1]) + ListenerOf(tasks[|tasks| - 1])
  }

  lemma {:induction false} HeldUpdate(tasks: seq<Task>, t: nat, task: Task)
    requires t < |tasks|
    ensures SpanOf(tasks[t]) <= Spans(tasks) && ListenerOf(tasks[t]) <= Listeners(tasks)
    ensures Spans(tasks[t := task]) + SpanOf(tasks[t]) == Spans(tasks) + SpanOf(task)
    ensures Listeners(tasks[t := task]) + ListenerOf(tasks[t]) == Listeners(tasks) + ListenerOf(task)
  {
    var n := |tasks| - 1;
    if t < n {
      assert tasks[t := task][..n] == tasks[..n][t := task];
      HeldUpdate(tasks[..n], t, task);
    } else {
      assert tasks[t := task][..n] == tasks[..n];
    }
  }

  ghost predicate Held(a: Agent) {
    a.sh.spans == Spans(a.tasks) && a.sh.listeners == Listeners(a.tasks)
  }

  /** A move opens and releases exactly what the run comes to hold and stops holding. */
  ghost predicate Balances(sh: Shared, r: Run, sh': Shared, r': Run) {
    && sh'.spans + Num(r.span) == sh.spans + Num(r'.span)
    && sh'.listeners + Num(r.listener) == sh.listeners + Num(r'.listener)
  }

  lemma LeavingBalances(sh: Shared, r: Run, r': Run)
    requires Num(r.span) <= sh.spans && Num(r.listener) <= sh.listeners && Frees(r')
    ensures Balances(sh, r, Released(sh, r), r')
  {
  }

  lemma TopBalances(c: Config, sh: Shared, r: Run)
    requires Num(r.span) <= sh.spans && Num(r.listener) <= sh.listeners
    ensures Balances(sh, r, DoTop(c, sh, r).0, DoTop(c, sh, r).1)
  {
    if Stop(c, r.w.st) {
      LeavingBalances(sh, r, LeaveLoop(r));
    } else if sh.aborted {
      TopCancelBalances(sh, r);
    } else if Breach(r.budget, r.w.st.usage) {
      TopBreachBalances(sh, r);
    }
  }

  lemma TopCancelBalances(sh: Shared, r: Run)
    requires Num(r.span) <= sh.spans && Num(r.listener) <= sh.listeners
    ensures Balances(sh, r, Exited(sh, r, TopCancel(sh, r)), TopCancel(sh, r))
  {
    LeavingBalances(sh, r, LeaveLoop(r));
  }

  lemma TopBreachBalances(sh: Shared, r: Run)
    ensures Balances(sh, r, sh, TopBreach(r))
  {
  }

  lemma CloseBalances(sh: Shared, r: Run, again: bool, feedback: string)
    requires r.pc.Closing? && Num(r.span) <= sh.spans && Num(r.listener) <= sh.listeners
    ensures var r' := DoClose(r, again, feedback); Balances(sh, r, Exited(sh, r, r'), r')
  {
    LeavingBalances(sh, r, LeaveLoop(r));
  }

  lemma MoveBalances(c: Config, sh: Shared, r: Run, m: Move)
    requires Enabled(c, sh, r, m) && (r.pc.Seeding? ==> !r.span)
    requires Num(r.span) <= sh.spans && Num(r.listener) <= sh.listeners
    ensures Balances(sh, r, Step(c, sh, r, m).0, Step(c, sh, r, m).1)
  {
    if m.Top? {
      TopBalances(c, sh, r);
    } else if m.Close? {
      CloseBalances(sh, r, m.again, m.feedback);
    } else {
      MoveHasEffect(c, sh, r, m);
      OtherShared(c, sh, r, m);
      OtherBalances(c, sh, r, m, Step(c, sh, r, m).0, Step(c, sh, r, m).1);
    }
  }

  lemma OtherBalances(c: Config, sh: Shared, r: Run, m: Move, sh': Shared, r': Run)
    requires Effect(c, r, m, r') && !m.Top? && !m.Close? && (r.pc.Seeding? ==> !r.span)
    requires sh'.spans == sh.spans + Num(m.SeedDone?) && sh'.listeners == sh.listeners
    ensures Balances(sh, r, sh', r')
  {
  }

  lemma OtherShared(c: Config, sh: Shared, r: Run, m: Move)
    requires Enabled(c, sh, r, m) && !m.Top? && !m.Close?
    ensures Step(c, sh, r, m).0.spans == sh.spans + Num(m.SeedDone?) && Step(c, sh, r, m).0.listeners == sh.listeners
  {
  }

  lemma LeaveHeld(sh: Shared, tasks: seq<Task>, t: nat, r: Run, how: End)
    requires t < |tasks| && tasks[t] == Live(r)
    requires sh.spans == Spans(tasks) && sh.listeners == Listeners(tasks)
    ensures Leave(sh, r).spans == Spans(tasks[t := Over(Some(r), how)])
    ensures Leave(sh, r).listeners == Listeners(tasks[t := Over(Some(r), how)])
  {
    HeldUpdate(tasks, t, Over(Some(r), how));
  }

  lemma AdvanceHeld(c: Config, a: Agent, t: nat, m: Move)
    requires Can(c, a, Advance(t, m)) && Orderly(c, a) && Held(a)
    ensures Held(DoAdvance(c, a, t, m))
  {
    var p := Step(c, a.sh, a.tasks[t].run, m);
    StepHeld(c, a, t, m);
    if p.1.pc.Gone? {
      var mid := a.tasks[t := Live(p.1)];
      LeaveHeld(p.0, mid, t, p.1, Crashed);
      assert mid[t := Over(Some(p.1), Crashed)] == a.tasks[t := Over(Some(p.1), Crashed)];
    }
  }

  lemma StepHeld(c: Config, a: Agent, t: nat, m: Move)
    requires Can(c, a, Advance(t, m)) && Orderly(c, a) && Held(a)
    ensures var (sh, r) := Step(c, a.sh, a.tasks[t].run, m);
            sh.spans == Spans(a.tasks[t := Live(r)]) && sh.listeners == Listeners(a.tasks[t := Live(r)])
  {
    assert TaskOrderly(c, a.tasks[t]);
    HeldUpdate(a.tasks, t, Live(Step(c, a.sh, a.tasks[t].run, m).1));
    MoveBalances(c, a.sh, a.tasks[t].run, m);
  }

  lemma StartHeld(a: Agent, t: nat)
    requires t < |a.tasks| && a.tasks[t].Created? && Held(a)
    ensures Held(DoEnter(a, t))
  {
    HeldUpdate(a.tasks, t, DoEnter(a, t).tasks[t]);
  }

  lemma ApplyHeld(c: Config, a: Agent, x: Action)
    requires Can(c, a, x) && Orderly(c, a) && Held(a)
    ensures Held(Apply(c, a, x))
  {
    match x {
      case Create(args) => assert (a.tasks + [Created(args)])[..|a.tasks|] == a.tasks;
      case Start(t) => StartHeld(a, t);
      case Advance(t, m) => AdvanceHeld(c, a, t, m);
      case Yield(t) => LeaveHeld(a.sh, a.tasks, t, a.tasks[t].run, Returned);
      case Teardown(t) => LeaveHeld(a.sh, a.tasks, t, a.tasks[t].run, Abandoned);
      case _ =>
    }
  }

  /** The documented clean-up on every exit path happens exactly on the paths that reached the guarded
      region: open spans and parent listeners are those of live runs that have not left their loop,
      and of runs that ended before the guarded region. */
  lemma {:induction false} LeaksExactly(c: Config, xs: seq<Action>, states: seq<Agent>, n: nat)
    requires Execution(c, xs, states) && n < |states|
    ensures Held(states[n])
  {
    if n > 0 {
      LeaksExactly(c, xs, states, n - 1);
      ExecutionOrderly(c, xs, states, n - 1);
      ApplyHeld(c, states[n - 1], xs[n - 1]);
    }
  }

  lemma PerformCons(c: Config, a: Agent, x: Action, a': Agent, xs: seq<Action>)
    requires Can(c, a, x) && Apply(c, a, x) == a'
    ensures Perform(c, a, [x] + xs) == Perform(c, a', xs)
  {
    assert ([x] + xs)[1..] == xs;
  }

  /** The only task makes one move. */
  lemma OnlyTaskMoves(c: Config, a: Agent, r: Run, m: Move, sh': Shared, r': Run)
    requires a.tasks == [Live(r)] && Enabled(c, a.sh, r, m) && Step(c, a.sh, r, m) == (sh', r') && !r'.pc.Gone?
    ensures Can(c, a, Advance(0, m))
    ensures Apply(c, a, Advance(0, m)).sh == sh' && Apply(c, a, Advance(0, m)).tasks == [Live(r')]
  {
  }

  ghost predicate HoldsUnentered(r: Run, sh: Shared, pc: Pc, listener: bool) {
    && r.pc == pc && !r.resumed && !r.entered && r.span && r.listener == listener
    && sh.spans == 1 && sh.listeners == Num(listener)
  }

  lemma BlockedStarts(c: Config, args: Args, a: Agent)
    requires args.input.Fresh? && ValidBudget(args.budget) && a == Apply(c, INIT, Create(args))
    ensures Can(c, a, Start(0)) &&
            var b := Apply(c, a, Start(0));
            b.tasks == [Live(NewRun(args, []))] && b.sh.spans == 0 && b.sh.listeners == Num(args.parent.Attached?)
  {
    assert a.tasks == [Created(args)];
  }

  lemma BlockedSeeds(c: Config, args: Args, sh: Shared)
    requires args.input.Fresh? && sh.spans == 0 && sh.listeners == Num(args.parent.Attached?)
    ensures var r := NewRun(args, []);
            Enabled(c, sh, r, SeedDone("")) &&
            var (sh', r') := Step(c, sh, r, SeedDone("")); HoldsUnentered(r', sh', Opened, args.parent.Attached?)
  {
  }

  lemma BlockedFinishes(c: Config, sh: Shared, r: Run, listener: bool)
    requires HoldsUnentered(r, sh, Opened, listener)
    ensures Enabled(c, sh, r, Screen(true)) &&
            var (sh', r') := Step(c, sh, r, Screen(true));
            HoldsUnentered(r', sh', Finishing, listener) && Enabled(c, sh', r', Finish) &&
            var (sh2, r2) := Step(c, sh', r', Finish); HoldsUnentered(r2, sh2, Returning, listener)
  {
  }

  lemma BlockedLeaves(c: Config, a: Agent, r: Run, listener: bool)
    requires a.tasks == [Live(r)] && HoldsUnentered(r, a.sh, Returning, listener)
    ensures Can(c, a, Yield(0)) &&
            var b := Apply(c, a, Yield(0));
            !b.sh.inFlight && b.tasks == [Over(Some(r), Returned)] && b.sh.spans == 1 && b.sh.listeners == Num(listener)
  {
  }

  /** A fresh run that the input screen blocks returns like any other and leaks both. */
  lemma BlockedRunLeaks(c: Config, args: Args)
    requires args.input.Fresh? && ValidBudget(args.budget)
    ensures var last := [Advance(0, Finish)] + ([Yield(0)] + []);
            var moves := [Advance(0, SeedDone(""))] + ([Advance(0, Screen(true))] + last);
            var end := Perform(c, INIT, [Create(args)] + ([Start(0)] + moves));
            end.Some? && !end.value.sh.inFlight && |end.value.tasks| == 1 && end.value.tasks[0].Over? &&
            end.value.sh.spans == 1 && end.value.sh.listeners == Num(args.parent.Attached?)
  {
    var l := args.parent.Attached?;
    var a1 := Apply(c, INIT, Create(args));
    BlockedStarts(c, args, a1);
    var a2 := Apply(c, a1, Start(0));
    var r2 := NewRun(args, []);
    BlockedSeeds(c, args, a2.sh);
    var (sh3, r3) := Step(c, a2.sh, r2, SeedDone(""));
    OnlyTaskMoves(c, a2, r2, SeedDone(""), sh3, r3);
    var a3 := Apply(c, a2, Advance(0, SeedDone("")));
    BlockedFinishes(c, sh3, r3, l);
    var (sh4, r4) := Step(c, sh3, r3, Screen(true));
    OnlyTaskMoves(c, a3, r3, Screen(true), sh4, r4);
    var a4 := Apply(c, a3, Advance(0, Screen(true)));
    var (sh5, r5) := Step(c, sh4, r4, Finish);
    OnlyTaskMoves(c, a4, r4, Finish, sh5, r5);
    var a5 := Apply(c, a4, Advance(0, Finish));
    BlockedLeaves(c, a5, r5, l);
    PerformAll(c, args, a1, a2, a3, a4, a5);
  }

  lemma PerformAll(c: Config, args: Args, a1: Agent, a2: Agent, a3: Agent, a4: Agent, a5: Agent)
    requires a1 == Apply(c, INIT, Create(args))
    requires Can(c, a1, Start(0)) && a2 == Apply(c, a1, Start(0))
    requires Can(c, a2, Advance(0, SeedDone(""))) && a3 == Apply(c, a2, Advance(0, SeedDone("")))
    requires Can(c, a3, Advance(0, Screen(true))) && a4 == Apply(c, a3, Advance(0, Screen(true)))
    requires Can(c, a4, Advance(0, Finish)) && a5 == Apply(c, a4, Advance(0, Finish)) && Can(c, a5, Yield(0))
    ensures var last := [Advance(0, Finish)] + ([Yield(0)] + []);
            var moves := [Advance(0, SeedDone(""))] + ([Advance(0, Screen(true))] + last);
            Perform(c, INIT, [Create(args)] + ([Start(0)] + moves)) == Some(Apply(c, a5, Yield(0)))
  {
    var a6 := Apply(c, a5, Yield(0));
    var m6 := [Yield(0)] + [];
    var m5 := [Advance(0, Finish)] + m6;
    var m4 := [Advance(0, Screen(true))] + m5;
    var m3 := [Advance(0, SeedDone(""))] + m4;
    PerformCons(c, a5, Yield(0), a6, []);
    PerformCons(c, a4, Advance(0, Finish), a5, m6);
    PerformCons(c, a3, Advance(0, Screen(true)), a4, m5);
    PerformCons(c, a2, Advance(0, SeedDone("")), a3, m4);
    PerformCons(c, a1, Start(0), a2, m3);
    PerformCons(c, INIT, Create(args), a1, [Start(0)] + m3);
  }
}
