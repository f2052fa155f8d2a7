/** Where approvals may be pending: never inside the loop, and outside it only on runs the guard sees. */
module RunCalm {
  import opened Options
  import opened Transcript
  import opened RunStates
  import opened Approvals
  import opened Resume
  import opened RunLoop
  import opened RunEffects

  // ---------------------------------------------------------------- approvals and status

  /** Nothing waits for an approval and the run has not failed. */
  predicate Calm(st: RunState) {
    st.pending == [] && !st.status.Failed? && !st.status.AwaitingApproval?
  }

  /** Approvals are pending only on suspended, aborted or failed runs. */
  predicate Guarded(st: RunState) {
    st.pending != [] ==> st.status.AwaitingApproval? || st.status.Aborted? || st.status.Failed?
  }

  predicate InLoop(pc: Pc) {
    pc.LoopTop? || InsideTry(pc)
  }

  predicate CalmAt(pc: Pc, resumed: bool, st: RunState) {
    && Guarded(st)
    && (InLoop(pc) || pc.Seeding? || (pc.Opened? && !resumed) ==> Calm(st))
  }

  /** A directive that leaves nothing undecided sets the run going; otherwise the status stays. */
  lemma DirectiveGuarded(w: Work, ds: seq<Decision>)
    requires Guarded(w.st)
    ensures var st := ApplyDirective(w, ds).w.st;
            Guarded(st) && (st.pending == [] ==> st.status.Running?) && (st.pending != [] ==> st.status == w.st.status)
  {
    DirectiveKeepsStatus(w, w.st.pending, ds);
    DecideAllFollows(w, w.st.pending, ds);
    var still := DecideAll(w, w.st.pending, ds).still;
    if still != [] {
      assert still[0] in w.st.pending;
    }
  }

  /** From here on the guard is right: what is not suspended waits for nothing. */
  predicate Settles(st: RunState) {
    !st.status.Failed? && Guarded(st)
  }

  lemma SettleOneSettles(w: Work, park: CallId, child: Child)
    requires Settles(w.st)
    ensures Settles(SettleOne(w, park, child).st)
  {
  }

  lemma {:induction false} SettleAllSettles(w: Work, heads: seq<CallId>, children: map<CallId, Child>)
    requires Settles(w.st)
    ensures Settles(SettleAll(w, heads, children).w.st)
  {
    if heads != [] {
      var n := |heads| - 1;
      SettleAllSettles(w, heads[..n], children);
      var f := SettleAll(w, heads[..n], children).w;
      if SettleAll(w, heads, children).AllSettled? {
        SettleOneSettles(f, heads[n], children[heads[n]]);
      }
    }
  }

  lemma DispatchedSettles(d: Directed)
    requires Settles(d.w.st)
    ensures Settles(Dispatched(d).st)
  {
    AnswerAllKeepsStatus(BeginStep(d.w), d.granted);
  }

  ghost predicate GuardedOutcome(o: Outcome) {
    Guarded(o.w.st) && (o.Enter? ==> Calm(o.w.st))
  }

  lemma AfterDirectiveGuarded(d: Directed, children: map<CallId, Child>)
    requires Guarded(d.w.st)
    ensures GuardedOutcome(AfterDirective(d, children))
  {
    if !d.w.st.status.Failed? {
      DispatchedSettles(d);
      SettleAllSettles(BeginStep(Dispatched(d)), d.routed, children);
    }
  }

  /** A resume of a guarded state enters the loop with nothing pending, whatever it decides. */
  lemma ResumeGuarded(w: Work, directive: Option<seq<Decision>>, children: map<CallId, Child>)
    requires Guarded(w.st)
    ensures GuardedOutcome(ResumeRun(w, directive, children))
  {
    if directive.Some? && w.st.pending != [] {
      DirectiveGuarded(w, directive.value);
      AfterDirectiveGuarded(ApplyDirective(w, directive.value), children);
    } else {
      AfterDirectiveGuarded(Directed(w, [], [], w.st.pending), children);
    }
  }

  lemma CancelGuarded(w: Work, policy: Policy)
    ensures Guarded(Cancel(w, policy).st)
    ensures w.st.pending == [] ==> Cancel(w, policy).st.pending == []
  {
    DenyAllPending(w, w.st.pending);
  }

  lemma {:induction false} DenyAllPending(w: Work, denied: seq<Approval>)
    ensures DenyAll(w, denied).st.pending == w.st.pending
  {
    if denied != [] {
      DenyAllPending(w, denied[..|denied| - 1]);
    }
  }

  lemma {:induction false} WalkAllRequests(k: Walk, ids: seq<CallId>, ds: seq<Disposition>)
    requires |ids| == |ds|
    ensures WalkAll(k, ids, ds).requested >= k.requested
    ensures WalkAll(k, ids, ds).requested == k.requested ==> WalkAll(k, ids, ds).w.st.pending == k.w.st.pending
  {
    if ids != [] {
      var n := |ids| - 1;
      WalkAllRequests(k, ids[..n], ds[..n]);
      var f := WalkAll(k, ids[..n], ds[..n]);
      AnswerAllPending(f.w, f.batch);
    }
  }

  /** A walk that requests nothing leaves nothing pending; one that does suspends the run. */
  lemma WalkGuarded(w: Work, ids: seq<CallId>, ds: seq<Disposition>)
    requires |ids| == |ds| && Calm(w.st)
    ensures var k := WalkStep(w, ids, ds); Guarded(k.w.st) && (k.requested == 0 ==> Calm(k.w.st))
  {
    var k := WalkAll(Walk(w, [], 0), ids, ds);
    WalkAllRequests(Walk(w, [], 0), ids, ds);
    AnswerAllPending(k.w, k.batch);
    WalkKeepsStatus(w, ids, ds);
  }

  // ---------------------------------------------------------------- moves

  ghost predicate StaysCalm(r: Run, r': Run) {
    CalmAt(r'.pc, r'.resumed, r'.w.st) && r'.resumed == r.resumed
  }

  lemma TopCancelCalm(sh: Shared, r: Run)
    requires Calm(r.w.st)
    ensures StaysCalm(r, TopCancel(sh, r))
  {
    CancelGuarded(r.w, AbortPolicy(sh));
  }

  lemma TopCalm(c: Config, sh: Shared, r: Run)
    requires r.pc.LoopTop? && Calm(r.w.st)
    ensures StaysCalm(r, DoTop(c, sh, r).1)
  {
    if !Stop(c, r.w.st) && sh.aborted {
      TopCancelCalm(sh, r);
    }
  }

  lemma ResumedCalm(r: Run, o: Outcome)
    requires GuardedOutcome(o)
    ensures StaysCalm(r, Resumed(r, o))
  {
  }

  lemma ResumptionCalm(c: Config, sh: Shared, r: Run, m: Move)
    requires Enabled(c, sh, r, m) && m.Resumption? && Guarded(r.w.st)
    ensures StaysCalm(r, Step(c, sh, r, m).1)
  {
    ResumeGuarded(FoldAll(r.w, m.folds), r.directive, m.children);
    ResumedCalm(r, ResumeWith(r.w, r.directive, m.children, m.folds, m.throws));
  }

  lemma FreshCalm(c: Config, sh: Shared, r: Run, m: Move)
    requires Enabled(c, sh, r, m) && CalmAt(r.pc, r.resumed, r.w.st)
    requires m.SeedDone? || m.SeedThrow? || m.Screen? || m.ScreenThrow?
    ensures StaysCalm(r, Step(c, sh, r, m).1)
  {
  }

  lemma RequestCalm(c: Config, sh: Shared, r: Run, m: Move)
    requires Enabled(c, sh, r, m) && IsRequest(m) && CalmAt(r.pc, r.resumed, r.w.st)
    ensures StaysCalm(r, Step(c, sh, r, m).1)
  {
    if m.Prepare? {
      ShrinkAllFrame(r.w, r.prefix, m.trims);
    }
  }

  lemma FailureCalm(c: Config, sh: Shared, r: Run, m: Move)
    requires Enabled(c, sh, r, m) && IsFailure(m)
    ensures StaysCalm(r, Step(c, sh, r, m).1)
  {
    var r' := Step(c, sh, r, m).1;
    FailureHas(c, sh, r, m);
    assert Guarded(r'.w.st) && !InLoop(r'.pc);
  }

  lemma WalkedCalm(sh: Shared, r: Run, k: Walk)
    requires r.pc.Walking? && Guarded(k.w.st) && (k.requested == 0 ==> Calm(k.w.st))
    ensures StaysCalm(r, Walked(sh, r, k))
  {
    CancelGuarded(k.w, AbortPolicy(sh));
  }

  lemma ClosingCalm(c: Config, sh: Shared, r: Run, m: Move)
    requires Enabled(c, sh, r, m) && IsClosing(m) && CalmAt(r.pc, r.resumed, r.w.st)
    ensures StaysCalm(r, Step(c, sh, r, m).1)
  {
    match m {
      case ChainAbort => CancelGuarded(r.w, AbortPolicy(sh));
      case WalkDone(outcomes) =>
        WalkGuarded(r.w, r.pc.calls, outcomes);
        WalkedCalm(sh, r, WalkStep(r.w, r.pc.calls, outcomes));
      case ChainDone(text, calls, model, cost) => ReplyCalm(r, text, calls, model, cost);
      case Close(again, feedback) => CloseCalm(r, again, feedback);
      case _ =>
    }
  }

  lemma ReplyCalm(r: Run, text: string, calls: seq<CallId>, model: string, cost: Usage)
    requires Calm(r.w.st)
    ensures StaysCalm(r, DoChainDone(r, text, calls, model, cost))
  {
  }

  lemma CloseCalm(r: Run, again: bool, feedback: string)
    requires r.pc.Closing? && Calm(r.w.st)
    ensures StaysCalm(r, DoClose(r, again, feedback))
  {
  }

  lemma MoveKeepsCalm(c: Config, sh: Shared, r: Run, m: Move)
    requires Enabled(c, sh, r, m) && CalmAt(r.pc, r.resumed, r.w.st)
    ensures StaysCalm(r, Step(c, sh, r, m).1)
  {
    if m.Top? {
      TopCalm(c, sh, r);
    } else if m.Resumption? {
      ResumptionCalm(c, sh, r, m);
    } else if IsOpening(m) {
      FreshCalm(c, sh, r, m);
    } else if IsRequest(m) {
      RequestCalm(c, sh, r, m);
    } else if IsFailure(m) {
      FailureCalm(c, sh, r, m);
    } else {
      ClosingCalm(c, sh, r, m);
    }
  }

  // ---------------------------------------------------------------- requests

  ghost predicate CalmRequests(qs: seq<Request>) {
    forall q | q in qs :: Calm(q.st)
  }

  lemma RequestsGrow(c: Config, sh: Shared, r: Run, m: Move)
    requires Enabled(c, sh, r, m) && CalmAt(r.pc, r.resumed, r.w.st) && CalmRequests(r.requests)
    ensures CalmRequests(Step(c, sh, r, m).1.requests)
  {
    if m.Send? || m.Retry? || m.Fallback? {
      AskedGrow(c, sh, r, m);
    } else if IsOpening(m) {
      OpeningRequests(c, sh, r, m);
    } else {
      OtherRequests(c, sh, r, m);
    }
  }

  lemma AskedGrow(c: Config, sh: Shared, r: Run, m: Move)
    requires Enabled(c, sh, r, m) && CalmAt(r.pc, r.resumed, r.w.st) && CalmRequests(r.requests)
    requires m.Send? || m.Retry? || m.Fallback?
    ensures CalmRequests(Step(c, sh, r, m).1.requests)
  {
    var r' := Step(c, sh, r, m).1;
    assert r'.requests == r.requests + [Request(r'.w.buf + c.trailer, r'.w.st)];
    RequestCalm(c, sh, r, m);
  }

  lemma TopRequests(c: Config, sh: Shared, r: Run)
    ensures DoTop(c, sh, r).1.requests == r.requests
  {
  }

  lemma ResumedRequests(r: Run, o: Outcome)
    ensures Resumed(r, o).requests == r.requests
  {
  }

  lemma OpeningRequests(c: Config, sh: Shared, r: Run, m: Move)
    requires Enabled(c, sh, r, m) && IsOpening(m)
    ensures Step(c, sh, r, m).1.requests == r.requests
  {
    match m {
      case Top => TopRequests(c, sh, r);
      case Resumption(children, folds, throws) =>
        ResumedRequests(r, ResumeWith(r.w, r.directive, children, folds, throws));
      case _ =>
    }
  }

  lemma OtherRequests(c: Config, sh: Shared, r: Run, m: Move)
    requires Enabled(c, sh, r, m) && !IsOpening(m) && !m.Send? && !m.Retry? && !m.Fallback?
    ensures Step(c, sh, r, m).1.requests == r.requests
  {
    if IsFailure(m) {
      FailureRequests(c, sh, r, m);
    }
  }

  lemma FailRunRequests(r: Run, p: Run)
    requires p.requests == r.requests
    ensures FailRun(p).requests == r.requests
  {
  }

  lemma FailureRequests(c: Config, sh: Shared, r: Run, m: Move)
    requires Enabled(c, sh, r, m) && IsFailure(m)
    ensures Step(c, sh, r, m).1.requests == r.requests
  {
    match m {
      case ChainFail(model, spent) => FailRunRequests(r, if spent.total == 0 then r else Truncated(r, model, spent));
      case CommitThrow(said, model, cost) => FailRunRequests(r, CommitThrown(r, said, model, cost));
      case WalkThrow(done, outcomes) =>
        FailRunRequests(r, r.(w := WalkAll(Walk(r.w, [], 0), r.pc.calls[..done], outcomes).w));
      case _ => FailRunRequests(r, r);
    }
  }
}
