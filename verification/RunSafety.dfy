/** What every move of a run keeps: the transcript each provider request carries. */
module RunSafety {
  import opened Options
  import opened Transcript
  import opened Compaction
  import opened RunStates
  import opened Approvals
  import opened Resume
  import opened RunLoop

  /** A request a provider accepts: grouped transcript, nothing pending, run not failed. */
  ghost predicate GoodRequest(q: Request) {
    Grouped(q.messages) && Documented(q.messages) && Accepted(q.messages) &&
    q.st.pending == [] && q.st.parks == [] && !q.st.status.Failed?
  }

  ghost predicate GoodConfig(c: Config) {
    forall m | m in c.trailer :: m.System?
  }

  ghost predicate PinnedTo(buf: seq<Message>, prefix: nat) {
    prefix <= |buf| && forall i | 0 <= i < prefix :: buf[i].System?
  }

  /** The loop region: nothing owed, not failed, prefix pinned. */
  ghost predicate Ready(w: Work, prefix: nat) {
    Presentable(w.st) && Fits(w.st) && PinnedTo(w.buf, prefix)
  }

  ghost predicate Deliverable(st: RunState) {
    st.status.Failed? || Resumable(st)
  }

  /** A failed state whose approvals the directive would decide completely slips past the guard. */
  ghost predicate Bypasses(st: RunState, directive: Option<seq<Decision>>) {
    st.status.Failed? && Decides(directive, st.pending)
  }

  /** What holds at a program point. */
  ghost predicate SoundAt(pc: Pc, w: Work, resumed: bool, directive: Option<seq<Decision>>, prefix: nat) {
    (!pc.Gone? ==> w.buf == w.st.messages) &&
    match pc
    case Seeding(seed) => w.st == FRESH && Grouped(seed)
    case Opened =>
      if resumed then Deliverable(w.st) && !Bypasses(w.st, directive) else Presentable(w.st) && Fits(w.st)
    case LoopTop => Ready(w, prefix)
    case StepOpen => Ready(w, prefix)
    case Prepared => Ready(w, prefix)
    case Chaining(_, _) => Ready(w, prefix)
    case Walking(calls) => Committed(w.st, calls) && Fits(w.st) && PinnedTo(w.buf, prefix)
    case Closing(_) => Ready(w, prefix)
    case Finalizing => Resumable(w.st) && !w.st.status.Failed?
    case Finishing => Deliverable(w.st)
    case Returning => Deliverable(w.st)
    case Gone => true
  }

  ghost predicate GoodRequests(qs: seq<Request>) {
    forall q | q in qs :: GoodRequest(q)
  }

  ghost predicate Sound(r: Run) {
    GoodRequests(r.requests) && SoundAt(r.pc, r.w, r.resumed, r.directive, r.prefix)
  }

  /** The moves the promise is made for: no gated call reuses the id of a call that already ran, and
      the deny policy does not meet an approval that belongs to a parked sub-agent run. */
  ghost predicate Clean(sh: Shared, r: Run, m: Move) {
    m.WalkDone? ==> CleanWalk(sh, r, m.outcomes)
  }

  ghost predicate CleanWalk(sh: Shared, r: Run, outcomes: seq<Disposition>) {
    r.pc.Walking? && |outcomes| == |r.pc.calls| ==>
      && (forall id | id in GatedIds(r.pc.calls, outcomes) :: !Replayable(r.w.st, id))
      && var st := WalkStep(r.w, r.pc.calls, outcomes).w.st;
         sh.aborted && AbortPolicy(sh).Deny? ==> st.parks == [] && forall a | a in st.pending :: a.path == []
  }

  lemma PresentableIsResumable(st: RunState)
    requires Presentable(st) && Fits(st)
    ensures Resumable(st)
  {
    assert Own(st.pending) + ToSet(st.parks) == {};
  }

  lemma SayGrouped(w: Work, ms: seq<Message>)
    requires Grouped(w.st.messages) && Grouped(ms)
    ensures Grouped(SayAll(w, ms).st.messages)
  {
    if ms != [] {
      GroupedStartsClean(ms);
    }
    GroupedConcat(w.st.messages, ms);
  }

  // ---------------------------------------------------------------- points and works

  lemma SeedPoint(w: Work, seed: seq<Message>, system: string)
    requires w.buf == w.st.messages && w.st == FRESH && Grouped(seed)
    ensures var ms := (if system == "" then [] else [System(system)]) + seed;
            SoundAt(Opened, SayAll(w, ms), false, None, 0)
  {
    var head := if system == "" then [] else [System(system)];
    PlainIsGrouped(head);
    if seed != [] {
      GroupedStartsClean(seed);
    }
    GroupedConcat(head, seed);
    SayGrouped(w, head + seed);
  }

  lemma EnterPoint(w: Work)
    requires w.buf == w.st.messages && Presentable(w.st) && Fits(w.st)
    ensures Ready(w, Leading(w.buf))
  {
  }

  /** A failed state the directive does not decide completely comes back failed. */
  lemma FailedStays(w: Work, directive: Option<seq<Decision>>, children: map<CallId, Child>)
    requires w.buf == w.st.messages && w.st.status.Failed? && !Bypasses(w.st, directive)
    ensures var o := ResumeRun(w, directive, children);
            o.Return? && o.w.st.status.Failed? && o.w.buf == o.w.st.messages
  {
    if directive.Some? && w.st.pending != [] {
      StillUncovered(w, w.st.pending, directive.value);
      DirectiveKeepsStatus(w, w.st.pending, directive.value);
      DirectiveKeepsMirror(w, w.st.pending, directive.value);
    }
  }

  lemma {:induction false} DirectiveKeepsMirror(w: Work, pending: seq<Approval>, ds: seq<Decision>)
    requires w.buf == w.st.messages
    ensures DecideAll(w, pending, ds).w.buf == DecideAll(w, pending, ds).w.st.messages
  {
    if pending != [] {
      DirectiveKeepsMirror(w, pending[..|pending| - 1], ds);
    }
  }

  ghost predicate GoodOutcome(o: Outcome) {
    && (o.Return? ==> o.w.buf == o.w.st.messages && Deliverable(o.w.st))
    && (o.Enter? ==> o.w.buf == o.w.st.messages && Ready(o.w, Leading(o.w.buf)))
  }

  lemma ResumePoint(w: Work, directive: Option<seq<Decision>>, children: map<CallId, Child>)
    requires w.buf == w.st.messages && Deliverable(w.st) && !Bypasses(w.st, directive)
    ensures GoodOutcome(ResumeRun(w, directive, children))
  {
    var o := ResumeRun(w, directive, children);
    if w.st.status.Failed? {
      FailedStays(w, directive, children);
    } else {
      ResumeSafe(w, directive, children);
      if o.Enter? {
        EnterPoint(o.w);
      }
    }
  }

  lemma FoldDeliverable(w: Work, folds: seq<(string, Usage)>)
    requires Deliverable(w.st)
    ensures Deliverable(FoldAll(w, folds).st)
  {
    SteadySame(w.st, FoldAll(w, folds).st);
  }

  lemma CancelPresentable(w: Work, policy: Policy)
    requires w.buf == w.st.messages && Presentable(w.st) && Fits(w.st)
    ensures var r := Cancel(w, policy); r.buf == r.st.messages && Resumable(r.st) && r.st.status.Aborted?
  {
    assert Own(w.st.pending) + ToSet(w.st.parks) == {};
  }

  lemma DrainPoint(w: Work, steer: seq<Message>, prefix: nat)
    requires w.buf == w.st.messages && Ready(w, prefix) && Grouped(steer)
    ensures Ready(SayAll(w, steer), prefix) && SayAll(w, steer).buf == SayAll(w, steer).st.messages
  {
    SayGrouped(w, steer);
  }

  lemma ShrinkKeepsReady(w: Work, prefix: nat, trim: Trim)
    requires Ready(w, prefix) && w.buf == w.st.messages
    ensures Ready(Shrink(w, prefix, trim), prefix)
    ensures Shrink(w, prefix, trim).buf == Shrink(w, prefix, trim).st.messages
  {
    if trim.TrimTo? && Trims(w, prefix, trim) {
      SpliceKeepsGrouping(w.buf, prefix, trim.recent, trim.keep, trim.summary, trim.essentials);
      var ms := Shrink(w, prefix, trim).buf;
      assert ms[..prefix] == w.buf[..prefix];
      forall i | 0 <= i < prefix
        ensures ms[i].System?
      {
        assert ms[i] == ms[..prefix][i];
      }
    }
  }

  lemma {:induction false} ShrinkAllKeepsReady(w: Work, prefix: nat, trims: seq<Trim>)
    requires Ready(w, prefix) && w.buf == w.st.messages
    ensures Ready(ShrinkAll(w, prefix, trims), prefix)
    ensures ShrinkAll(w, prefix, trims).buf == ShrinkAll(w, prefix, trims).st.messages
    decreases |trims|
  {
    if trims != [] {
      ShrinkKeepsReady(w, prefix, trims[0]);
      ShrinkAllKeepsReady(Shrink(w, prefix, trims[0]), prefix, trims[1..]);
    }
  }

  lemma AskIsGood(c: Config, w: Work, prefix: nat)
    requires GoodConfig(c) && w.buf == w.st.messages && Ready(w, prefix)
    ensures GoodRequest(Request(w.buf + c.trailer, w.st))
  {
    PlainIsGrouped(c.trailer);
    if c.trailer != [] {
      assert c.trailer[0] in c.trailer;
    }
    GroupedConcat(w.buf, c.trailer);
    GroupedIsDocumented(w.buf + c.trailer);
  }

  lemma AskKeepsSound(c: Config, r: Run)
    requires GoodConfig(c) && r.pc.Chaining? && Sound(r)
    ensures Sound(Ask(c, r))
  {
    AskIsGood(c, r.w, r.prefix);
  }

  lemma ChainDoneKeepsSound(r: Run, text: string, calls: seq<CallId>, model: string, cost: Usage)
    requires r.pc.Chaining? && Sound(r)
    ensures Sound(DoChainDone(r, text, calls, model, cost))
  {
    CommitFacts(Charged(r, model, cost).w, text, calls);
    assert calls == [] ==> ToSet(calls) == {};
  }

  /** The walk only appends to the buffer. */
  lemma WalkExtends(w: Work, ids: seq<CallId>, ds: seq<Disposition>)
    requires |ids| == |ds|
    ensures w.buf <= WalkStep(w, ids, ds).w.buf
  {
    var k := WalkAll(Walk(w, [], 0), ids, ds);
    WalkAllExtends(Walk(w, [], 0), ids, ds);
    AnswerAllExtends(k.w, k.batch);
  }

  lemma {:induction false} AnswerAllExtends(w: Work, ids: seq<CallId>)
    ensures w.buf <= AnswerAll(w, ids).buf
  {
    if ids != [] {
      AnswerAllExtends(w, ids[..|ids| - 1]);
    }
  }

  lemma WalkOneExtends(k: Walk, id: CallId, d: Disposition)
    ensures k.w.buf <= WalkOne(k, id, d).w.buf
  {
    AnswerAllExtends(k.w, k.batch);
  }

  lemma {:induction false} WalkAllExtends(k: Walk, ids: seq<CallId>, ds: seq<Disposition>)
    requires |ids| == |ds|
    ensures k.w.buf <= WalkAll(k, ids, ds).w.buf
  {
    if ids != [] {
      var n := |ids| - 1;
      WalkAllExtends(k, ids[..n], ds[..n]);
      WalkOneExtends(WalkAll(k, ids[..n], ds[..n]), ids[n], ds[n]);
    }
  }

  lemma {:induction false} WalkAllMirrors(k: Walk, ids: seq<CallId>, ds: seq<Disposition>)
    requires |ids| == |ds| && k.w.buf == k.w.st.messages
    ensures WalkAll(k, ids, ds).w.buf == WalkAll(k, ids, ds).w.st.messages
  {
    if ids != [] {
      var n := |ids| - 1;
      WalkAllMirrors(k, ids[..n], ds[..n]);
      var f := WalkAll(k, ids[..n], ds[..n]);
      AnswerAllMirrors(f.w, f.batch);
    }
  }

  lemma {:induction false} AnswerAllMirrors(w: Work, ids: seq<CallId>)
    requires w.buf == w.st.messages
    ensures AnswerAll(w, ids).buf == AnswerAll(w, ids).st.messages
  {
    if ids != [] {
      AnswerAllMirrors(w, ids[..|ids| - 1]);
    }
  }

  /** What a walk leaves at the two points it can lead to. */
  lemma WalkPoint(w: Work, ids: seq<CallId>, ds: seq<Disposition>, prefix: nat)
    requires |ids| == |ds| && w.buf == w.st.messages && Committed(w.st, ids) && Fits(w.st) && PinnedTo(w.buf, prefix)
    requires forall id | id in GatedIds(ids, ds) :: !Replayable(w.st, id)
    ensures var k := WalkStep(w, ids, ds);
            k.w.buf == k.w.st.messages && (if k.requested == 0 then Ready(k.w, prefix) else Resumable(k.w.st))
  {
    WalkOutcome(w, ids, ds);
    WalkKeepsStatus(w, ids, ds);
    WalkExtends(w, ids, ds);
  }

  lemma WalkKeepsSound(c: Config, sh: Shared, r: Run, outcomes: seq<Disposition>)
    requires r.pc.Walking? && |outcomes| == |r.pc.calls| && Sound(r)
    requires CleanWalk(sh, r, outcomes)
    ensures Sound(Walked(sh, r, WalkStep(r.w, r.pc.calls, outcomes)))
  {
    WalkPoint(r.w, r.pc.calls, outcomes, r.prefix);
    var k := WalkStep(r.w, r.pc.calls, outcomes);
    if k.requested > 0 && sh.aborted {
      CancelSafe(k.w, AbortPolicy(sh));
    }
  }

  // ---------------------------------------------------------------- moves

  lemma SeedKeepsSound(sh: Shared, r: Run, system: string)
    requires r.pc.Seeding? && Sound(r) && !r.resumed
    ensures Sound(DoSeed(sh, r, system).1)
  {
    SeedPoint(r.w, r.pc.seed, system);
  }

  lemma EnterKeepsSound(r: Run, w: Work)
    requires GoodRequests(r.requests) && w.buf == w.st.messages && Ready(w, Leading(w.buf))
    ensures Sound(EnterLoop(r, w))
  {
  }

  lemma ResumedKeepsSound(r: Run, o: Outcome)
    requires GoodRequests(r.requests) && GoodOutcome(o)
    ensures Sound(Resumed(r, o))
  {
    if o.Enter? {
      EnterKeepsSound(r, o.w);
    }
  }

  lemma LeaveKeepsSound(r: Run)
    requires GoodRequests(r.requests) && r.w.buf == r.w.st.messages && Resumable(r.w.st) && !r.w.st.status.Failed?
    ensures Sound(LeaveLoop(r))
  {
  }

  lemma FailKeepsSound(r: Run)
    requires GoodRequests(r.requests) && r.w.buf == r.w.st.messages
    ensures Sound(FailRun(r)) && Sound(FailRun(r).(pc := Gone))
  {
  }

  lemma CancelKeepsSound(sh: Shared, r: Run)
    requires r.pc.LoopTop? && Sound(r)
    ensures Sound(TopCancel(sh, r))
  {
    CancelPresentable(r.w, AbortPolicy(sh));
    LeaveKeepsSound(r.(w := Cancel(r.w, AbortPolicy(sh))));
  }

  lemma OpenKeepsSound(r: Run, steer: seq<Message>)
    requires r.pc.LoopTop? && Sound(r) && Grouped(steer)
    ensures Sound(TopOpen(steer, r))
  {
    DrainPoint(r.w, steer, r.prefix);
  }

  lemma TopKeepsSound(c: Config, sh: Shared, r: Run)
    requires r.pc.LoopTop? && Sound(r) && Grouped(sh.steer)
    ensures Sound(DoTop(c, sh, r).1)
  {
    if Stop(c, r.w.st) {
      PresentableIsResumable(r.w.st);
      LeaveKeepsSound(r);
    } else if sh.aborted {
      CancelKeepsSound(sh, r);
    } else if Breach(r.budget, r.w.st.usage) {
      FailKeepsSound(r);
    } else {
      OpenKeepsSound(r, sh.steer);
    }
  }

  lemma AgainPoint(w: Work, feedback: string, prefix: nat)
    requires w.buf == w.st.messages && Ready(w, prefix)
    ensures Ready(Say(w, User(feedback)), prefix) && Say(w, User(feedback)).buf == Say(w, User(feedback)).st.messages
  {
    PlainIsGrouped([User(feedback)]);
    SayGrouped(w, [User(feedback)]);
  }

  lemma CompletePoint(w: Work, prefix: nat)
    requires w.buf == w.st.messages && Ready(w, prefix)
    ensures Resumable(WithStatus(w, Completed).st)
  {
    PresentableIsResumable(w.st.(status := Completed));
  }

  lemma CloseKeepsSound(r: Run, again: bool, feedback: string)
    requires r.pc.Closing? && Sound(r)
    ensures Sound(DoClose(r, again, feedback))
  {
    if r.pc.calls == [] && again {
      AgainPoint(r.w, feedback, r.prefix);
    } else if r.pc.calls == [] {
      var e := r.(events := r.events + [StepEnd(r.stepNumber)], w := WithStatus(r.w, Completed));
      CompletePoint(r.w, r.prefix);
      LeaveKeepsSound(e);
    }
  }

  lemma OpeningMoves(c: Config, sh: Shared, r: Run, m: Move)
    requires GoodConfig(c) && Enabled(c, sh, r, m) && Sound(r) && Grouped(sh.steer) && (r.pc.Seeding? ==> !r.resumed)
    requires IsOpening(m)
    ensures Sound(Step(c, sh, r, m).1)
  {
    match m {
      case SeedDone(system) => SeedKeepsSound(sh, r, system);
      case SeedThrow =>
      case ScreenThrow =>
      case Screen(blocked) =>
        if blocked { FailKeepsSound(r); } else { EnterPoint(r.w); EnterKeepsSound(r, r.w); }
      case Resumption(children, folds, throws) =>
        FoldDeliverable(r.w, folds);
        ResumePoint(FoldAll(r.w, folds), r.directive, children);
        ResumedKeepsSound(r, ResumeWith(r.w, r.directive, children, folds, throws));
      case Top => TopKeepsSound(c, sh, r);
    }
  }

  lemma PrepareKeepsSound(r: Run, trims: seq<Trim>)
    requires r.pc.StepOpen? && Sound(r)
    ensures Sound(r.(w := ShrinkAll(r.w, r.prefix, trims), pc := Prepared))
  {
    ShrinkAllKeepsReady(r.w, r.prefix, trims);
  }

  lemma RetryKeepsSound(c: Config, r: Run, trim: Trim)
    requires GoodConfig(c) && r.pc.Chaining? && Sound(r)
    ensures Sound(Ask(c, r.(w := Shrink(r.w, r.prefix, trim), pc := Chaining(r.pc.left, false))))
  {
    ShrinkKeepsReady(r.w, r.prefix, trim);
    AskKeepsSound(c, r.(w := Shrink(r.w, r.prefix, trim), pc := Chaining(r.pc.left, false)));
  }

  lemma RequestMoves(c: Config, sh: Shared, r: Run, m: Move)
    requires GoodConfig(c) && Enabled(c, sh, r, m) && Sound(r)
    requires IsRequest(m)
    ensures Sound(Step(c, sh, r, m).1)
  {
    match m {
      case Prepare(trims) => PrepareKeepsSound(r, trims);
      case Send => AskKeepsSound(c, r.(pc := Chaining(c.providers - 1, true)));
      case Retry(trim) => RetryKeepsSound(c, r, trim);
      case Fallback => AskKeepsSound(c, r.(pc := Chaining(r.pc.left - 1, r.pc.mayShrink)));
    }
  }

  lemma FailureMoves(c: Config, sh: Shared, r: Run, m: Move)
    requires Enabled(c, sh, r, m) && Sound(r)
    requires IsFailure(m)
    ensures Sound(Step(c, sh, r, m).1)
  {
    match m {
      case ChainFail(model, spent) =>
        FailKeepsSound(if spent.total == 0 then r else Truncated(r, model, spent));
      case ChainNone => FailKeepsSound(r);
      case CommitThrow(said, model, cost) => FailKeepsSound(CommitThrown(r, said, model, cost));
      case WalkThrow(done, outcomes) =>
        WalkAllMirrors(Walk(r.w, [], 0), r.pc.calls[..done], outcomes);
        FailKeepsSound(r.(w := WalkAll(Walk(r.w, [], 0), r.pc.calls[..done], outcomes).w));
      case StepThrow => FailKeepsSound(r);
    }
  }

  lemma FinalizeKeepsSound(r: Run, rejected: bool)
    requires r.pc.Finalizing? && Sound(r)
    ensures Sound(DoFinalize(r, rejected))
  {
  }

  lemma AbortKeepsSound(sh: Shared, r: Run)
    requires (r.pc.Chaining? || r.pc.Prepared?) && Sound(r)
    ensures Sound(r.(w := Cancel(r.w, AbortPolicy(sh)), pc := Finishing))
  {
    CancelPresentable(r.w, AbortPolicy(sh));
  }

  lemma FinishKeepsSound(r: Run)
    requires r.pc.Finishing? && Sound(r)
    ensures Sound(r.(events := r.events + [AgentEnd(r.w.st.status)], pc := Returning))
  {
  }

  lemma ClosingMoves(c: Config, sh: Shared, r: Run, m: Move)
    requires Enabled(c, sh, r, m) && Clean(sh, r, m) && Sound(r)
    requires IsClosing(m)
    ensures Sound(Step(c, sh, r, m).1)
  {
    match m {
      case ChainAbort => AbortKeepsSound(sh, r);
      case ChainDone(text, calls, model, cost) => ChainDoneKeepsSound(r, text, calls, model, cost);
      case WalkDone(outcomes) => WalkKeepsSound(c, sh, r, outcomes);
      case Close(again, feedback) => CloseKeepsSound(r, again, feedback);
      case Finalize(rejected) => FinalizeKeepsSound(r, rejected);
      case FinalizeThrow =>
      case Finish => FinishKeepsSound(r);
    }
  }

  /** Every clean move keeps a sound run sound. */
  lemma MoveKeepsSound(c: Config, sh: Shared, r: Run, m: Move)
    requires GoodConfig(c) && Enabled(c, sh, r, m) && Clean(sh, r, m)
    requires Sound(r) && Grouped(sh.steer) && (r.pc.Seeding? ==> !r.resumed)
    ensures Sound(Step(c, sh, r, m).1)
  {
    if IsOpening(m) {
      OpeningMoves(c, sh, r, m);
    } else if IsRequest(m) {
      RequestMoves(c, sh, r, m);
    } else if IsFailure(m) {
      FailureMoves(c, sh, r, m);
    } else {
      ClosingMoves(c, sh, r, m);
    }
  }
}
