/** What each move of a run does to its program point, journal, usage, events and held resources. The
    invariants of the following modules are read off these effects. */
module RunEffects {
  import opened Options
  import opened Transcript
  import opened RunStates
  import opened Approvals
  import opened Resume
  import opened Ledgers
  import opened RunLoop

  /** Journal, usage and accumulator are untouched. */
  predicate SameBooks(w: Work, w': Work) {
    && w'.st.steps == w.st.steps && w'.st.usage == w.st.usage && w'.st.byModel == w.st.byModel
    && w'.st.folded == w.st.folded && w'.acc == w.acc
  }

  predicate SameStatus(r: Run, r': Run) {
    r'.w.st.status == r.w.st.status
  }

  /** What a run fixes when it starts, and at loop entry. */
  predicate Frame(r: Run, r': Run) {
    && r'.stepNumber == r.stepNumber && r'.stepBase == r.stepBase
    && r'.entered == r.entered && r'.entryStatus == r.entryStatus && r'.entryUsage == r.entryUsage
    && r'.startUsage == r.startUsage && r'.budget == r.budget
  }

  predicate Holds(r: Run, r': Run) {
    r'.span == r.span && r'.listener == r.listener
  }

  predicate Frees(r': Run) {
    !r'.span && !r'.listener
  }

  /** Nothing new is off the books. */
  predicate NothingLost(r: Run, r': Run) {
    r'.unjournaled == r.unjournaled && r'.unaccounted == r.unaccounted
  }

  predicate Silent(r: Run, r': Run) {
    r'.events == r.events
  }

  /** Only messages, requests, status and program point change. */
  predicate Plain(r: Run, r': Run) {
    Frame(r, r') && SameBooks(r.w, r'.w) && NothingLost(r, r')
  }

  predicate Enters(r: Run, r': Run) {
    && r'.pc == LoopTop && r'.entered && r'.stepNumber == MaxStep(r'.w.st.steps)
    && r'.entryStatus == r'.w.st.status && r'.entryUsage == r'.w.st.usage
    && r'.startUsage == r.startUsage && r'.budget == r.budget && NothingLost(r, r') && Silent(r, r') && Holds(r, r')
  }

  predicate Fails(r: Run, r': Run) {
    r'.pc == Finishing && r'.w.st.status == Failed && Silent(r, r') && Holds(r, r')
  }

  predicate Spends(w: Work, w': Work, u: Usage) {
    && w'.st.usage == Add(w.st.usage, u) && SumModels(w'.st.byModel) == Add(SumModels(w.st.byModel), u)
    && w'.st.folded == w.st.folded
  }

  predicate OpensStep(r: Run, r': Run) {
    && SameBooks(r.w, r'.w) && SameStatus(r, r') && NothingLost(r, r') && Holds(r, r')
    && r'.stepNumber == r.stepNumber + 1 && r'.stepBase == r.w.st.usage.total
    && r'.entered == r.entered && r'.entryStatus == r.entryStatus && r'.entryUsage == r.entryUsage
    && r'.startUsage == r.startUsage && r'.budget == r.budget
    && r'.events == r.events + [StepStart(r.stepNumber + 1)] && r'.pc == StepOpen
  }

  ghost predicate TopEffect(c: Config, r: Run, r': Run) {
    || (Plain(r, r') && Silent(r, r') && r'.pc == Finalizing && Frees(r'))
    || (Plain(r, r') && Silent(r, r') && Holds(r, r') && r'.w.st.status == Failed &&
        (r'.pc == Finishing || r'.pc == Gone))
    || (OpensStep(r, r') && !Stop(c, r.w.st) && !Breach(r.budget, r.w.st.usage))
  }

  ghost predicate OpeningEffect(c: Config, r: Run, m: Move, r': Run) {
    match m
    case SeedDone(_) =>
      && Plain(r, r') && SameStatus(r, r') && r'.events == r.events + [AgentStart]
      && r'.pc == Opened && r'.span && r'.listener == r.listener
    case SeedThrow => Plain(r, r') && Silent(r, r') && Holds(r, r') && r'.pc == Gone
    case ScreenThrow => Plain(r, r') && Silent(r, r') && Holds(r, r') && r'.pc == Gone
    case Screen(_) => (Plain(r, r') && Fails(r, r')) || (SameBooks(r.w, r'.w) && Enters(r, r'))
    case Resumption(_, _, _) =>
      && Booked(r.w, r'.w)
      && (|| (Frame(r, r') && NothingLost(r, r') && Silent(r, r') && Holds(r, r') &&
              (r'.pc == Gone || r'.pc == Finishing))
          || Enters(r, r'))
    case Top => TopEffect(c, r, r')
    case _ => true
  }

  ghost predicate RequestEffect(c: Config, r: Run, m: Move, r': Run) {
    && Plain(r, r') && SameStatus(r, r') && Silent(r, r') && Holds(r, r')
    && match m
       case Prepare(_) => r'.pc == Prepared
       case Send => c.providers > 0 && r'.pc == Chaining(c.providers - 1, true)
       case Retry(_) => r.pc.Chaining? && r.pc.mayShrink && r'.pc == Chaining(r.pc.left, false)
       case Fallback => r.pc.Chaining? && r.pc.left > 0 && r'.pc == Chaining(r.pc.left - 1, r.pc.mayShrink)
       case _ => true
  }

  ghost predicate FailureEffect(r: Run, m: Move, r': Run) {
    && Frame(r, r') && Fails(r, r')
    && match m
       case ChainFail(_, spent) =>
         if spent.total == 0 then Plain(r, r')
         else
           && Spends(r.w, r'.w, spent) && r'.w.st.steps == r.w.st.steps && r'.w.acc == r.w.acc
           && r'.unjournaled == r.unjournaled + [spent] && r'.unaccounted == r.unaccounted + [spent]
       case CommitThrow(_, _, cost) =>
         && Spends(r.w, r'.w, cost) && r'.w.st.steps == r.w.st.steps && r'.w.acc == Add(r.w.acc, cost)
         && r'.unjournaled == r.unjournaled + [cost] && r'.unaccounted == r.unaccounted
       case WalkThrow(_, _) => SameStep(r.w, r'.w) && NothingLost(r, r')
       case _ => Plain(r, r')
  }

  ghost predicate ClosingEffect(r: Run, m: Move, r': Run) {
    && Frame(r, r') && NothingLost(r, r')
    && match m
       case ChainAbort => Plain(r, r') && Silent(r, r') && Holds(r, r') && r'.pc == Finishing
       case ChainDone(_, calls, _, cost) =>
         && Spends(r.w, r'.w, cost) && r'.w.acc == Add(r.w.acc, cost)
         && r'.w.st.steps == r.w.st.steps + [StepRec(r.stepNumber, cost, [])]
         && SameStatus(r, r') && Silent(r, r') && Holds(r, r')
         && (r'.pc == Closing([]) || r'.pc == Walking(calls))
       case WalkDone(_) =>
         && SameStep(r.w, r'.w) && Silent(r, r') && Holds(r, r') && r.pc.Walking?
         && ((r'.pc == Closing(r.pc.calls) && SameStatus(r, r')) || r'.pc == Finishing)
       case Close(_, _) => Closes(r, r')
       case Finalize(_) => Plain(r, r') && Silent(r, r') && Holds(r, r') && r'.pc == Finishing
       case FinalizeThrow => Plain(r, r') && SameStatus(r, r') && Silent(r, r') && Holds(r, r') && r'.pc == Gone
       case Finish =>
         && Plain(r, r') && SameStatus(r, r') && r'.events == r.events + [AgentEnd(r.w.st.status)]
         && Holds(r, r') && r'.pc == Returning
       case _ => true
  }

  /** The program points a move is made from. */
  predicate StartsAt(m: Move, pc: Pc) {
    match m
    case SeedDone(_) => pc.Seeding?
    case SeedThrow => pc.Seeding?
    case ScreenThrow => pc.Opened?
    case Screen(_) => pc.Opened?
    case Resumption(_, _, _) => pc.Opened?
    case Top => pc.LoopTop?
    case Prepare(_) => pc.StepOpen?
    case Send => pc.Prepared?
    case Retry(_) => pc.Chaining?
    case Fallback => pc.Chaining?
    case ChainFail(_, _) => pc.Chaining?
    case ChainAbort => pc.Chaining? || pc.Prepared?
    case ChainNone => pc.Chaining? || pc.Prepared?
    case ChainDone(_, _, _, _) => pc.Chaining?
    case CommitThrow(_, _, _) => pc.Chaining?
    case WalkDone(_) => pc.Walking?
    case WalkThrow(_, _) => pc.Walking?
    case StepThrow => InsideTry(pc)
    case Close(_, _) => pc.Closing?
    case Finalize(_) => pc.Finalizing?
    case FinalizeThrow => pc.Finalizing?
    case Finish => pc.Finishing?
  }

  ghost predicate Effect(c: Config, r: Run, m: Move, r': Run) {
    && StartsAt(m, r.pc)
    && if IsOpening(m) then OpeningEffect(c, r, m, r')
       else if IsRequest(m) then RequestEffect(c, r, m, r')
       else if IsFailure(m) then FailureEffect(r, m, r')
       else ClosingEffect(r, m, r')
  }

  // ---------------------------------------------------------------- opening moves

  lemma {:induction false} DenyAllFrame(w: Work, denied: seq<Approval>)
    ensures SameBooks(w, DenyAll(w, denied))
  {
    if denied != [] {
      DenyAllFrame(w, denied[..|denied| - 1]);
    }
  }

  lemma CancelFrame(w: Work, policy: Policy)
    ensures SameBooks(w, Cancel(w, policy))
    ensures Cancel(w, policy).st.status.Failed? || Cancel(w, policy).st.status.Aborted?
  {
    DenyAllFrame(w, w.st.pending);
  }

  lemma LeaveLoopEffect(r: Run, w: Work)
    requires SameBooks(r.w, w)
    ensures Plain(r, LeaveLoop(r.(w := w))) && Silent(r, LeaveLoop(r.(w := w))) && Frees(LeaveLoop(r.(w := w)))
  {
  }

  lemma TopCancelEffect(c: Config, sh: Shared, r: Run)
    ensures TopEffect(c, r, TopCancel(sh, r))
  {
    CancelFrame(r.w, AbortPolicy(sh));
    LeaveLoopEffect(r, Cancel(r.w, AbortPolicy(sh)));
  }

  lemma TopBreachEffect(c: Config, r: Run)
    ensures TopEffect(c, r, TopBreach(r))
  {
  }

  lemma TopOpenEffect(r: Run, steer: seq<Message>)
    ensures OpensStep(r, TopOpen(steer, r))
  {
  }

  lemma DoTopEffect(c: Config, sh: Shared, r: Run)
    ensures TopEffect(c, r, DoTop(c, sh, r).1)
  {
    if Stop(c, r.w.st) {
      LeaveLoopEffect(r, r.w);
    } else if sh.aborted {
      TopCancelEffect(c, sh, r);
    } else if Breach(r.budget, r.w.st.usage) {
      TopBreachEffect(c, r);
    } else {
      TopOpenEffect(r, sh.steer);
    }
  }

  lemma EnterEffect(r: Run, w: Work)
    ensures Enters(r, EnterLoop(r, w))
  {
  }

  lemma ResumedEffect(c: Config, r: Run, o: Outcome, m: Move)
    requires Booked(r.w, o.w) && m.Resumption?
    ensures OpeningEffect(c, r, m, Resumed(r, o))
  {
    if o.Enter? {
      EnterEffect(r, o.w);
    }
  }

  lemma ResumeWithBooked(
      w: Work, directive: Option<seq<Decision>>, children: map<CallId, Child>, folds: seq<(string, Usage)>,
      throws: bool)
    ensures Booked(w, ResumeWith(w, directive, children, folds, throws).w)
  {
    FoldBooked(w, folds);
    if !throws {
      var f := FoldAll(w, folds);
      ResumeBooked(f, directive, children);
      BookedTrans(w, f, ResumeRun(f, directive, children).w);
    }
  }

  lemma OpeningHas(c: Config, sh: Shared, r: Run, m: Move)
    requires Enabled(c, sh, r, m) && IsOpening(m)
    ensures OpeningEffect(c, r, m, Step(c, sh, r, m).1)
  {
    match m {
      case SeedDone(system) =>
      case SeedThrow =>
      case ScreenThrow =>
      case Screen(blocked) => EnterEffect(r, r.w);
      case Resumption(children, folds, throws) =>
        ResumeWithBooked(r.w, r.directive, children, folds, throws);
        ResumedEffect(c, r, ResumeWith(r.w, r.directive, children, folds, throws), m);
      case Top => DoTopEffect(c, sh, r);
    }
  }

  // ---------------------------------------------------------------- request, failure and closing moves

  lemma RequestHas(c: Config, sh: Shared, r: Run, m: Move)
    requires Enabled(c, sh, r, m) && IsRequest(m)
    ensures RequestEffect(c, r, m, Step(c, sh, r, m).1)
  {
    if m.Prepare? {
      ShrinkAllFrame(r.w, r.prefix, m.trims);
    }
  }

  lemma TruncatedEffect(r: Run, model: string, spent: Usage)
    requires spent.total != 0
    ensures FailureEffect(r, ChainFail(model, spent), FailRun(Truncated(r, model, spent)))
  {
  }

  lemma CommitThrowEffect(r: Run, said: Option<Message>, model: string, cost: Usage)
    ensures FailureEffect(r, CommitThrow(said, model, cost), FailRun(CommitThrown(r, said, model, cost)))
  {
  }

  lemma WalkThrowEffect(r: Run, w: Work, done: nat, outcomes: seq<Disposition>)
    requires SameStep(r.w, w)
    ensures FailureEffect(r, WalkThrow(done, outcomes), FailRun(r.(w := w)))
  {
    StatusBooked(w, Failed);
    BookedTrans(r.w, w, WithStatus(w, Failed));
  }

  lemma FailureHas(c: Config, sh: Shared, r: Run, m: Move)
    requires Enabled(c, sh, r, m) && IsFailure(m)
    ensures FailureEffect(r, m, Step(c, sh, r, m).1)
  {
    match m {
      case ChainFail(model, spent) =>
        if spent.total != 0 { TruncatedEffect(r, model, spent); } else { PlainFailure(r, m); }
      case CommitThrow(said, model, cost) => CommitThrowEffect(r, said, model, cost);
      case WalkThrow(done, outcomes) =>
        WalkAllBooked(Walk(r.w, [], 0), r.pc.calls[..done], outcomes);
        WalkThrowEffect(r, WalkAll(Walk(r.w, [], 0), r.pc.calls[..done], outcomes).w, done, outcomes);
      case _ => PlainFailure(r, m);
    }
  }

  lemma PlainFailure(r: Run, m: Move)
    requires m.ChainNone? || m.StepThrow? || (m.ChainFail? && m.spent.total == 0)
    ensures FailureEffect(r, m, FailRun(r))
  {
  }

  lemma ChainDoneEffect(r: Run, text: string, calls: seq<CallId>, model: string, cost: Usage)
    ensures ClosingEffect(r, ChainDone(text, calls, model, cost), DoChainDone(r, text, calls, model, cost))
  {
  }

  lemma WalkedEffect(sh: Shared, r: Run, k: Walk, outcomes: seq<Disposition>)
    requires r.pc.Walking? && SameStep(r.w, k.w) && (k.requested == 0 ==> k.w.st.status == r.w.st.status)
    ensures ClosingEffect(r, WalkDone(outcomes), Walked(sh, r, k))
  {
    var w := Cancel(k.w, AbortPolicy(sh));
    if k.requested == 0 {
      WalkClosesEffect(r, k.w, outcomes);
    } else if sh.aborted {
      assert SameStep(r.w, w) by {
        CancelBooked(k.w, AbortPolicy(sh));
        BookedTrans(r.w, k.w, w);
      }
      WalkEndsEffect(r, w, outcomes);
    } else {
      WalkEndsEffect(r, k.w, outcomes);
    }
  }

  lemma WalkClosesEffect(r: Run, w: Work, outcomes: seq<Disposition>)
    requires r.pc.Walking? && SameStep(r.w, w) && w.st.status == r.w.st.status
    ensures ClosingEffect(r, WalkDone(outcomes), r.(w := w, pc := Closing(r.pc.calls)))
  {
  }

  lemma WalkEndsEffect(r: Run, w: Work, outcomes: seq<Disposition>)
    requires r.pc.Walking? && SameStep(r.w, w)
    ensures ClosingEffect(r, WalkDone(outcomes), r.(w := w, pc := Finishing))
  {
  }

  /** What closing a step does, from the run and work the next point starts from. */
  ghost predicate Closes(r: Run, r': Run) {
    && Plain(r, r') && r'.events == r.events + [StepEnd(r.stepNumber)]
    && ((r'.pc == LoopTop && SameStatus(r, r') && Holds(r, r')) || (r'.pc == Finalizing && Frees(r')))
  }

  lemma CompleteCloses(r: Run, e: Run)
    requires e == r.(events := r.events + [StepEnd(r.stepNumber)])
    ensures Closes(r, LeaveLoop(e.(w := WithStatus(r.w, Completed))))
  {
  }

  lemma AgainCloses(r: Run, e: Run, feedback: string)
    requires e == r.(events := r.events + [StepEnd(r.stepNumber)])
    ensures Closes(r, e.(w := Say(r.w, User(feedback)), rounds := r.rounds + 1, pc := LoopTop))
  {
  }

  lemma CallsClose(r: Run, e: Run)
    requires e == r.(events := r.events + [StepEnd(r.stepNumber)])
    ensures Closes(r, e.(pc := LoopTop))
  {
  }

  lemma CloseEffect(r: Run, again: bool, feedback: string)
    requires r.pc.Closing?
    ensures ClosingEffect(r, Close(again, feedback), DoClose(r, again, feedback))
  {
    var e := r.(events := r.events + [StepEnd(r.stepNumber)]);
    assert Closes(r, DoClose(r, again, feedback)) by {
      if r.pc.calls != [] {
        CallsClose(r, e);
      } else if again {
        AgainCloses(r, e, feedback);
      } else {
        CompleteCloses(r, e);
      }
    }
  }

  lemma FinalizeEffect(r: Run, rejected: bool)
    ensures ClosingEffect(r, Finalize(rejected), DoFinalize(r, rejected))
  {
  }

  lemma ClosingHas(c: Config, sh: Shared, r: Run, m: Move)
    requires Enabled(c, sh, r, m) && IsClosing(m)
    ensures ClosingEffect(r, m, Step(c, sh, r, m).1)
  {
    match m {
      case ChainAbort => CancelFrame(r.w, AbortPolicy(sh));
      case ChainDone(text, calls, model, cost) => ChainDoneEffect(r, text, calls, model, cost);
      case WalkDone(outcomes) =>
        WalkBooked(r.w, r.pc.calls, outcomes);
        WalkKeepsStatus(r.w, r.pc.calls, outcomes);
        WalkedEffect(sh, r, WalkStep(r.w, r.pc.calls, outcomes), outcomes);
      case Close(again, feedback) => CloseEffect(r, again, feedback);
      case Finalize(rejected) => FinalizeEffect(r, rejected);
      case FinalizeThrow =>
      case Finish =>
    }
  }

  /** Every move has its effect. */
  lemma MoveHasEffect(c: Config, sh: Shared, r: Run, m: Move)
    requires Enabled(c, sh, r, m)
    ensures Effect(c, r, m, Step(c, sh, r, m).1)
  {
    if IsOpening(m) {
      OpeningHas(c, sh, r, m);
    } else if IsRequest(m) {
      RequestHas(c, sh, r, m);
    } else if IsFailure(m) {
      FailureHas(c, sh, r, m);
    } else {
      ClosingHas(c, sh, r, m);
    }
  }

  /** Seeding never recurs. */
  lemma NeverSeedsAgain(c: Config, r: Run, m: Move, r': Run)
    requires Effect(c, r, m, r')
    ensures !r'.pc.Seeding?
  {
  }
}
