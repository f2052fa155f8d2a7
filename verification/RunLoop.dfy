/** One agent run as a state machine. A run is a generator: it is suspended at every yield and await,
    and the caller's `steer`, `followUp`, `abort` and `compact` land between two moves. Each move
    carries what the outside world decides at that point (model replies, tool outcomes, throws). */
module RunLoop {
  import opened Options
  import opened Transcript
  import opened Compaction
  import opened RunStates
  import opened Approvals
  import opened Resume

  datatype Config = Config(
    stopAt: nat,              // step-count stop condition
    providers: nat,           // length of the fallback chain
    verifierRounds: nat,      // continuation rounds a verifier may claim
    trailer: seq<Message>)    // request-only system messages (output contract, plan recitation)

  /** A number a caller passes; the language has values that are not finite. */
  datatype Number = Finite(value: real) | NotFinite

  datatype Budget = Budget(
    maxTokens: Option<Number>,
    maxCostUsd: Option<Number>,
    onUnpriced: Option<string>,
    throwOnExceed: bool)

  datatype Event = AgentStart | StepStart(n: nat) | StepEnd(n: nat) | AgentEnd(status: Status)

  datatype Request = Request(messages: seq<Message>, st: RunState)

  datatype Pc =
    | Seeding(seed: seq<Message>)              // assembling the fresh run's first messages
    | Opened                                   // agent.start yielded
    | LoopTop                                  // about to evaluate the loop condition
    | StepOpen                                 // step.start yielded
    | Prepared                                 // compaction done, nothing sent
    | Chaining(left: nat, mayShrink: bool)     // a provider request is in flight
    | Walking(calls: seq<CallId>)              // assistant message committed and journaled
    | Closing(calls: seq<CallId>)              // tool calls settled
    | Finalizing                               // loop left without returning
    | Finishing                                // inside finishRun
    | Returning                                // agent.end yielded
    | Gone                                     // thrown or torn down

  /** The closure variables all runs of one agent share. `settled` logs the settled compactions,
      `listeners` and `spans` count parent-abort listeners and run spans not yet released. */
  datatype Shared = Shared(
    inFlight: bool,
    steer: seq<Message>,
    followUps: seq<Message>,
    abortPolicy: Option<Policy>,
    aborted: bool,
    active: bool,
    compacts: seq<nat>,
    settled: seq<nat>,
    listeners: nat,
    spans: nat)

  /** `entered` says that the guarded region was reached; `entryStatus`/`entryUsage` are taken there.
      `span` and `listener` say that the run holds its trace span and its parent-abort listener.
      `startUsage` is the usage the run began with, `stepBase` the total at the current step's start,
      `unjournaled` and `unaccounted` log what a failing step charged without a journal entry and
      without the run's accumulator. */
  datatype Run = Run(
    directive: Option<seq<Decision>>,
    resumed: bool,
    w: Work,
    stepNumber: nat,
    prefix: nat,
    rounds: nat,
    entered: bool,
    span: bool,
    listener: bool,
    budget: Budget,
    entryStatus: Status,
    entryUsage: Usage,
    startUsage: Usage,
    stepBase: nat,
    unjournaled: seq<Usage>,
    unaccounted: seq<Usage>,
    events: seq<Event>,
    requests: seq<Request>,
    pc: Pc)

  datatype Trim = NoTrim | TrimTo(recent: nat, keep: nat, summary: string, essentials: string)

  datatype Move =
    | SeedDone(system: string)
    | SeedThrow
    | Screen(blocked: bool)
    | ScreenThrow                             // an input guardrail threw
    | Resumption(children: map<CallId, Child>, folds: seq<(string, Usage)>, throws: bool)
    | Top
    | Prepare(trims: seq<Trim>)               // one per queued compaction, and one for the trigger
    | Send
    | Retry(trim: Trim)
    | Fallback
    | ChainFail(model: string, spent: Usage)
    | ChainAbort
    | ChainNone
    | ChainDone(text: string, calls: seq<CallId>, model: string, cost: Usage)
    | CommitThrow(said: Option<Message>, model: string, cost: Usage)   // a reply charged, then a throw
    | WalkDone(outcomes: seq<Disposition>)
    | WalkThrow(done: nat, outcomes: seq<Disposition>)
    | StepThrow
    | Close(again: bool, feedback: string)
    | Finalize(outputRejected: bool)
    | FinalizeThrow                           // an output guardrail threw
    | Finish

  predicate IsOpening(m: Move) {
    m.SeedDone? || m.SeedThrow? || m.Screen? || m.ScreenThrow? || m.Resumption? || m.Top?
  }

  predicate IsRequest(m: Move) {
    m.Prepare? || m.Send? || m.Retry? || m.Fallback?
  }

  predicate IsFailure(m: Move) {
    m.ChainFail? || m.ChainNone? || m.CommitThrow? || m.WalkThrow? || m.StepThrow?
  }

  predicate IsClosing(m: Move) {
    m.ChainAbort? || m.ChainDone? || m.WalkDone? || m.Close? || m.Finalize? || m.FinalizeThrow? || m.Finish?
  }

  // ---------------------------------------------------------------- pieces of the loop

  predicate Stop(c: Config, st: RunState) {
    |st.steps| >= c.stopAt
  }

  predicate ValidLimit(n: Option<Number>) {
    n.None? || (n.value.Finite? && n.value.value >= 0.0)
  }

  /** What the eager validation of a run's budget accepts. */
  predicate ValidBudget(b: Budget) {
    && ValidLimit(b.maxTokens) && ValidLimit(b.maxCostUsd)
    && (b.onUnpriced.None? || b.onUnpriced.value == "fail" || b.onUnpriced.value == "warn")
  }

  function Ceiling(b: Budget): Option<real> {
    if b.maxTokens.Some? && b.maxTokens.value.Finite? then Some(b.maxTokens.value.value) else None
  }

  predicate Breach(b: Budget, u: Usage) {
    Ceiling(b).Some? && u.total as real > Ceiling(b).value
  }

  function AbortPolicy(sh: Shared): Policy {
    if sh.abortPolicy.Some? then sh.abortPolicy.value else Deny
  }

  function WithStatus(w: Work, s: Status): Work {
    w.(st := w.st.(status := s))
  }

  function Shrink(w: Work, prefix: nat, trim: Trim): Work
    requires prefix <= |w.buf|
  {
    match trim
    case NoTrim => w
    case TrimTo(recent, keep, summary, essentials) =>
      match Splice(w.buf, prefix, recent, keep, summary, essentials)
      case NothingToTrim => w
      case Trimmed(ms) => w.(buf := ms, st := w.st.(messages := ms))
  }

  function ShrinkAll(w: Work, prefix: nat, trims: seq<Trim>): (r: Work)
    requires prefix <= |w.buf|
    ensures prefix <= |r.buf|
    decreases |trims|
  {
    if trims == [] then w
    else
      ShrinkKeepsPrefix(w, prefix, trims[0]);
      ShrinkAll(Shrink(w, prefix, trims[0]), prefix, trims[1..])
  }

  lemma ShrinkKeepsPrefix(w: Work, prefix: nat, trim: Trim)
    requires prefix <= |w.buf|
    ensures prefix <= |Shrink(w, prefix, trim).buf|
  {
  }

  /** Compaction rewrites messages only. */
  lemma {:induction false} ShrinkAllFrame(w: Work, prefix: nat, trims: seq<Trim>)
    requires prefix <= |w.buf|
    ensures var r := ShrinkAll(w, prefix, trims); r.acc == w.acc && r.st == w.st.(messages := r.st.messages)
    decreases |trims|
  {
    if trims != [] {
      ShrinkKeepsPrefix(w, prefix, trims[0]);
      ShrinkAllFrame(Shrink(w, prefix, trims[0]), prefix, trims[1..]);
    }
  }

  predicate Trims(w: Work, prefix: nat, trim: Trim)
    requires prefix <= |w.buf|
  {
    trim.TrimTo? && Splice(w.buf, prefix, trim.recent, trim.keep, trim.summary, trim.essentials).Trimmed?
  }

  function Ask(c: Config, r: Run): Run {
    r.(requests := r.requests + [Request(r.w.buf + c.trailer, r.w.st)])
  }

  /** The loop's `finally`: the span ends, the parent listener is dropped. */
  function Released(sh: Shared, r: Run): Shared {
    sh.(spans := Less(sh.spans, r.span), listeners := Less(sh.listeners, r.listener))
  }

  function Less(n: nat, b: bool): nat {
    if b && n > 0 then n - 1 else n
  }

  /** The loop was left by `break` or by its condition, so its `finally` has run. */
  function LeaveLoop(r: Run): Run {
    r.(span := false, listener := false, pc := Finalizing)
  }

  function SettleCompacts(sh: Shared): Shared {
    sh.(settled := sh.settled + sh.compacts, compacts := [])
  }

  /** The resumed or fresh state reaches the guarded region. */
  function EnterLoop(r: Run, w: Work): Run {
    r.(w := w, stepNumber := MaxStep(w.st.steps), prefix := Leading(w.buf), entered := true,
       entryStatus := w.st.status, entryUsage := w.st.usage, pc := LoopTop)
  }

  function FailRun(r: Run): Run {
    r.(w := WithStatus(r.w, Failed), pc := Finishing)
  }

  // ---------------------------------------------------------------- the moves

  predicate InsideTry(pc: Pc) {
    pc.StepOpen? || pc.Prepared? || pc.Chaining? || pc.Walking? || pc.Closing?
  }

  predicate Enabled(c: Config, sh: Shared, r: Run, m: Move) {
    match m
    case SeedDone(_) => r.pc.Seeding?
    case SeedThrow => r.pc.Seeding?
    case Screen(_) => r.pc.Opened? && !r.resumed
    case ScreenThrow => r.pc.Opened? && !r.resumed
    case Resumption(_, folds, _) => r.pc.Opened? && r.resumed && (folds == [] || Dispatches(r.w, r.directive))
    case Top => r.pc.LoopTop?
    case Prepare(_) => r.pc.StepOpen? && r.prefix <= |r.w.buf|
    case Send => r.pc.Prepared? && c.providers > 0
    case Retry(trim) => r.pc.Chaining? && r.pc.mayShrink && r.prefix <= |r.w.buf| && Trims(r.w, r.prefix, trim)
    case Fallback => r.pc.Chaining? && r.pc.left > 0
    case ChainFail(_, _) => r.pc.Chaining?
    case ChainAbort => (r.pc.Chaining? || (r.pc.Prepared? && c.providers == 0)) && sh.aborted
    case ChainNone => (r.pc.Chaining? || (r.pc.Prepared? && c.providers == 0)) && !sh.aborted
    case ChainDone(_, _, _, _) => r.pc.Chaining?
    case CommitThrow(said, _, _) => r.pc.Chaining? && (said.Some? ==> said.value.Assistant?)
    case WalkDone(outcomes) => r.pc.Walking? && |outcomes| == |r.pc.calls|
    case WalkThrow(done, outcomes) => r.pc.Walking? && done <= |r.pc.calls| && |outcomes| == done
    case StepThrow => InsideTry(r.pc)
    case Close(again, _) => r.pc.Closing? && (again ==> r.pc.calls == [] && r.rounds < c.verifierRounds)
    case Finalize(_) => r.pc.Finalizing?
    case FinalizeThrow => r.pc.Finalizing? && r.w.st.status.Completed?
    case Finish => r.pc.Finishing?
  }

  function Charged(r: Run, model: string, cost: Usage): Run {
    r.(w := r.w.(st := Charge(r.w.st, model, cost), acc := Add(r.w.acc, cost)))
  }

  /** A failed chain's truncated call is charged to the run state only. */
  function Truncated(r: Run, model: string, spent: Usage): Run {
    r.(w := r.w.(st := Charge(r.w.st, model, spent)),
       unjournaled := r.unjournaled + [spent], unaccounted := r.unaccounted + [spent])
  }

  function DoSeed(sh: Shared, r: Run, system: string): (Shared, Run)
    requires r.pc.Seeding?
  {
    var ms := (if system == "" then [] else [System(system)]) + r.pc.seed;
    (sh.(spans := sh.spans + 1),
     r.(w := SayAll(r.w, ms), span := true, events := r.events + [AgentStart], pc := Opened))
  }

  /** Some granted call is dispatched, and may fold a sub-agent run's usage in. */
  predicate Dispatches(w: Work, directive: Option<seq<Decision>>) {
    directive.Some? && w.st.pending != [] &&
    var d := ApplyDirective(w, directive.value);
    d.granted != [] && !d.w.st.status.Failed?
  }

  /** A resume; what granted calls fold in is charged before any routed sub-run's usage. */
  function ResumeWith(
      w: Work, directive: Option<seq<Decision>>, children: map<CallId, Child>, folds: seq<(string, Usage)>,
      throws: bool): Outcome
  {
    if throws then Threw(FoldAll(w, folds)) else ResumeRun(FoldAll(w, folds), directive, children)
  }

  /** A throw behind the charge, before or behind the commit of the assistant message. */
  function CommitThrown(r: Run, said: Option<Message>, model: string, cost: Usage): Run {
    var p := Charged(r, model, cost);
    p.(w := if said.Some? then Say(p.w, said.value) else p.w, unjournaled := p.unjournaled + [cost])
  }

  function Resumed(r: Run, o: Outcome): Run {
    match o
    case Threw(w) => r.(w := w, pc := Gone)
    case Return(w) => r.(w := w, pc := Finishing)
    case Enter(w) => EnterLoop(r, w)
  }

  function TopCancel(sh: Shared, r: Run): Run {
    var w := Cancel(r.w, AbortPolicy(sh));
    if w.st.status.Failed? then r.(w := w, pc := Finishing) else LeaveLoop(r.(w := w))
  }

  function TopBreach(r: Run): Run {
    if r.budget.throwOnExceed then FailRun(r).(pc := Gone) else FailRun(r)
  }

  /** Steering is drained into the buffer and the run state, and the step opens. */
  function TopOpen(steer: seq<Message>, r: Run): Run {
    r.(w := SayAll(r.w, steer), stepNumber := r.stepNumber + 1, stepBase := r.w.st.usage.total,
       events := r.events + [StepStart(r.stepNumber + 1)], pc := StepOpen)
  }

  function Exited(sh: Shared, r: Run, r': Run): Shared {
    if r'.pc.Finalizing? then Released(sh, r) else sh
  }

  /** Loop condition, abort check, budget check. */
  function DoTop(c: Config, sh: Shared, r: Run): (Shared, Run) {
    if Stop(c, r.w.st) then (Released(sh, r), LeaveLoop(r))
    else if sh.aborted then (Exited(sh, r, TopCancel(sh, r)), TopCancel(sh, r))
    else if Breach(r.budget, r.w.st.usage) then (sh, TopBreach(r))
    else (sh.(steer := []), TopOpen(sh.steer, r))
  }

  function DoChainDone(r: Run, text: string, calls: seq<CallId>, model: string, cost: Usage): Run {
    var p := Charged(r, model, cost);
    var w := Say(p.w, Assistant(text, calls));
    p.(w := w.(st := OpenStep(w.st, r.stepNumber, cost)), pc := if calls == [] then Closing([]) else Walking(calls))
  }

  /** A suspended walk ends the run; an abort that raced it is applied to what it collected. */
  function Walked(sh: Shared, r: Run, k: Walk): Run
    requires r.pc.Walking?
  {
    if k.requested == 0 then r.(w := k.w, pc := Closing(r.pc.calls))
    else if sh.aborted then r.(w := Cancel(k.w, AbortPolicy(sh)), pc := Finishing)
    else r.(w := k.w, pc := Finishing)
  }

  function DoClose(r: Run, again: bool, feedback: string): Run
    requires r.pc.Closing?
  {
    var e := r.(events := r.events + [StepEnd(r.stepNumber)]);
    if r.pc.calls != [] then e.(pc := LoopTop)
    else if again then e.(w := Say(r.w, User(feedback)), rounds := r.rounds + 1, pc := LoopTop)
    else LeaveLoop(e.(w := WithStatus(r.w, Completed)))
  }

  /** Terminal output phases: a run still 'running' was cut by the stop condition. */
  function DoFinalize(r: Run, outputRejected: bool): Run {
    var s := r.w.st.status;
    r.(w := WithStatus(r.w, if s.Running? || (s.Completed? && outputRejected) then Failed else s), pc := Finishing)
  }

  /** The effect of a move; a move that is not enabled changes nothing. */
  function Step(c: Config, sh: Shared, r: Run, m: Move): (Shared, Run) {
    if Enabled(c, sh, r, m) then Do(c, sh, r, m) else (sh, r)
  }

  function Do(c: Config, sh: Shared, r: Run, m: Move): (Shared, Run)
    requires Enabled(c, sh, r, m)
  {
    match m
    case SeedDone(system) => DoSeed(sh, r, system)
    case SeedThrow => (sh, r.(pc := Gone))
    case ScreenThrow => (sh, r.(pc := Gone))
    case Screen(blocked) => (sh, if blocked then FailRun(r) else EnterLoop(r, r.w))
    case Resumption(children, folds, throws) =>
      (sh, Resumed(r, ResumeWith(r.w, r.directive, children, folds, throws)))
    case Top => DoTop(c, sh, r)
    case Prepare(trims) => (SettleCompacts(sh), r.(w := ShrinkAll(r.w, r.prefix, trims), pc := Prepared))
    case Send => (sh, Ask(c, r.(pc := Chaining(c.providers - 1, true))))
    case Retry(trim) => (sh, Ask(c, r.(w := Shrink(r.w, r.prefix, trim), pc := Chaining(r.pc.left, false))))
    case Fallback => (sh, Ask(c, r.(pc := Chaining(r.pc.left - 1, r.pc.mayShrink))))
    case ChainFail(model, spent) =>
      (sh, FailRun(if spent.total == 0 then r else Truncated(r, model, spent)))
    case ChainAbort => (sh, r.(w := Cancel(r.w, AbortPolicy(sh)), pc := Finishing))
    case ChainNone => (sh, FailRun(r))
    case ChainDone(text, calls, model, cost) => (sh, DoChainDone(r, text, calls, model, cost))
    case CommitThrow(said, model, cost) => (sh, FailRun(CommitThrown(r, said, model, cost)))
    case WalkDone(outcomes) => (sh, Walked(sh, r, WalkStep(r.w, r.pc.calls, outcomes)))
    case WalkThrow(done, outcomes) =>
      (sh, FailRun(r.(w := WalkAll(Walk(r.w, [], 0), r.pc.calls[..done], outcomes).w)))
    case StepThrow => (sh, FailRun(r))
    case Close(again, feedback) => (Exited(sh, r, DoClose(r, again, feedback)), DoClose(r, again, feedback))
    case Finalize(rejected) => (sh.(active := false), DoFinalize(r, rejected))
    case FinalizeThrow => (sh, r.(pc := Gone))
    case Finish => (SettleCompacts(sh), r.(events := r.events + [AgentEnd(r.w.st.status)], pc := Returning))
  }
}
