/** What every move of a run keeps for the two-set pass, whatever ids are reused and whatever runs are
    resumed: the transcript of each request is accepted. */
module RunAccepted {
  import opened Options
  import opened Transcript
  import opened Compaction
  import opened RunStates
  import opened Approvals
  import opened Resume
  import opened Completion
  import opened RunLoop
  import opened RunCalm
  import opened RunSafety

  // ---------------------------------------------------------------- transcripts

  lemma ConcatOrphans(a: seq<Message>, b: seq<Message>)
    requires NoOrphan(a) && NoOrphan(b)
    ensures NoOrphan(a + b)
  {
    var all := a + b;
    forall j | 0 <= j < |all| && all[j].Tool?
      ensures AnnouncedBefore(all, j, all[j].callId)
    {
      if j < |a| {
        assert AnnouncedBefore(a, j, a[j].callId);
        var i :| 0 <= i < j && a[j].callId in Announces(a[i]);
        assert all[i] == a[i];
      } else {
        var k := j - |a|;
        assert all[j] == b[k] && AnnouncedBefore(b, k, b[k].callId);
        var i :| 0 <= i < k && b[k].callId in Announces(b[i]);
        assert all[|a| + i] == b[i];
      }
    }
  }

  /** Accepted transcripts one behind the other are accepted. */
  lemma ConcatAccepted(a: seq<Message>, b: seq<Message>)
    requires Accepted(a) && Accepted(b)
    ensures Accepted(a + b)
  {
    ConcatOrphans(a, b);
    AcceptedByIds(a);
    AcceptedByIds(b);
    forall id | Announced(a + b, id)
      ensures ResolvedSomewhere(a + b, id)
    {
      assert Announced(a, id) || Announced(b, id) by { AnnouncedInParts(a, b, id); }
      assert Tool(id) in a || Tool(id) in b;
      assert Tool(id) in a + b;
    }
    AcceptedByIds(a + b);
  }

  lemma AnnouncedInParts(a: seq<Message>, b: seq<Message>, id: CallId)
    requires Announced(a + b, id)
    ensures Announced(a, id) || Announced(b, id)
  {
    var i :| 0 <= i < |a + b| && id in Announces((a + b)[i]);
    if i < |a| {
      assert a[i] == (a + b)[i];
    } else {
      assert b[i - |a|] == (a + b)[i];
    }
  }

  lemma PlainAccepted(ms: seq<Message>)
    requires forall m | m in ms :: m.System? || m.User?
    ensures Accepted(ms)
  {
    assert ms + [] == ms;
    PlainFrontAccepted(ms, []);
  }

  /** A reply opens its calls and nothing else. */
  lemma ReplyOpens(ms: seq<Message>, text: string, calls: seq<CallId>)
    requires Accepted(ms)
    ensures Completes(ms + [Assistant(text, calls)], ToSet(calls))
  {
    var m := Assistant(text, calls);
    var all := ms + [m];
    AcceptedByIds(ms);
    OrphanGrows(ms, m);
    forall id
      ensures Announced(all, id) <==> Announced(ms, id) || id in calls
    {
      AnnouncedGrows(ms, m, id);
    }
    forall id | Announced(all, id)
      ensures ResolvedSomewhere(all, id) || id in ToSet(calls)
    {
      if Announced(ms, id) {
        var j :| 0 <= j < |ms| && ms[j] == Tool(id);
        assert all[j] == Tool(id);
      }
    }
  }

  // ---------------------------------------------------------------- compaction

  /** A compaction preserves a tail that is acceptable on its own: the condition of
      `SpliceAcceptedExactly`. */
  ghost predicate TrimFits(w: Work, prefix: nat, trim: Trim)
    requires prefix <= |w.buf|
  {
    Trims(w, prefix, trim) ==> Accepted(TailOf(w.buf, prefix, trim.recent))
  }

  ghost predicate TrimsFit(w: Work, prefix: nat, trims: seq<Trim>)
    requires prefix <= |w.buf|
    decreases |trims|
  {
    trims == [] ||
    (TrimFits(w, prefix, trims[0]) &&
     (ShrinkKeepsPrefix(w, prefix, trims[0]); TrimsFit(Shrink(w, prefix, trims[0]), prefix, trims[1..])))
  }

  /** It always does in the grouped transcripts the loop itself writes. */
  lemma GroupedTrimFits(w: Work, prefix: nat, trim: Trim)
    requires Grouped(w.buf) && PinnedTo(w.buf, prefix)
    ensures TrimFits(w, prefix, trim)
  {
    if Trims(w, prefix, trim) {
      SpliceKeepsGrouping(w.buf, prefix, trim.recent, trim.keep, trim.summary, trim.essentials);
      GroupedIsDocumented(Splice(w.buf, prefix, trim.recent, trim.keep, trim.summary, trim.essentials).messages);
      SpliceAcceptedExactly(w.buf, prefix, trim.recent, trim.keep, trim.summary, trim.essentials);
    }
  }

  /** Inside the loop: nothing to answer, buffer mirrored and prefix pinned. */
  ghost predicate Clear(w: Work, prefix: nat) {
    w.buf == w.st.messages && Accepted(w.buf) && PinnedTo(w.buf, prefix)
  }

  lemma ShrinkClear(w: Work, prefix: nat, trim: Trim)
    requires Clear(w, prefix) && TrimFits(w, prefix, trim)
    ensures Clear(Shrink(w, prefix, trim), prefix)
  {
    if Trims(w, prefix, trim) {
      SpliceAcceptedExactly(w.buf, prefix, trim.recent, trim.keep, trim.summary, trim.essentials);
      ShrinkPinned(w, prefix, trim);
    }
  }

  lemma ShrinkPinned(w: Work, prefix: nat, trim: Trim)
    requires PinnedTo(w.buf, prefix) && Trims(w, prefix, trim)
    ensures PinnedTo(Shrink(w, prefix, trim).buf, prefix)
  {
    var ms := Shrink(w, prefix, trim).buf;
    assert ms[..prefix] == w.buf[..prefix];
    forall i | 0 <= i < prefix
      ensures ms[i].System?
    {
      assert ms[i] == ms[..prefix][i];
    }
  }

  lemma {:induction false} ShrinkAllClear(w: Work, prefix: nat, trims: seq<Trim>)
    requires Clear(w, prefix) && TrimsFit(w, prefix, trims)
    ensures Clear(ShrinkAll(w, prefix, trims), prefix)
    decreases |trims|
  {
    if trims != [] {
      ShrinkClear(w, prefix, trims[0]);
      ShrinkAllClear(Shrink(w, prefix, trims[0]), prefix, trims[1..]);
    }
  }

  // ---------------------------------------------------------------- program points

  /** What a run leaves behind: failed, or acceptable once what is pending is decided. */
  ghost predicate Acceptable(st: RunState) {
    st.status.Failed? || Completable(st)
  }

  /** What a state must offer a resume: the same, also of a failed one that the directive revives. */
  ghost predicate Startable(st: RunState, directive: Option<seq<Decision>>) {
    Completable(st) || (st.status.Failed? && !Decides(directive, st.pending))
  }

  ghost predicate PassesAt(pc: Pc, w: Work, resumed: bool, directive: Option<seq<Decision>>, prefix: nat) {
    (!pc.Gone? ==> w.buf == w.st.messages) &&
    match pc
    case Seeding(seed) => !resumed && w.buf == [] && Accepted(seed)
    case Opened => if resumed then Startable(w.st, directive) else Accepted(w.buf)
    case LoopTop => Clear(w, prefix)
    case StepOpen => Clear(w, prefix)
    case Prepared => Clear(w, prefix)
    case Chaining(_, _) => Clear(w, prefix)
    case Walking(calls) => Completes(w.buf, ToSet(calls)) && PinnedTo(w.buf, prefix)
    case Closing(_) => Clear(w, prefix)
    case Finalizing => Acceptable(w.st)
    case Finishing => Acceptable(w.st)
    case Returning => Acceptable(w.st)
    case Gone => true
  }

  ghost predicate Passes(r: Run) {
    PassesAt(r.pc, r.w, r.resumed, r.directive, r.prefix)
  }

  /** The moves the promise is made for: each compaction's preserved tail is acceptable on its own, and
      a default abort that races a walk meets approvals it can deny. */
  ghost predicate Fair(sh: Shared, r: Run, m: Move) {
    match m
    case Prepare(trims) => r.prefix <= |r.w.buf| ==> TrimsFit(r.w, r.prefix, trims)
    case Retry(trim) => r.prefix <= |r.w.buf| ==> TrimFits(r.w, r.prefix, trim)
    case WalkDone(outcomes) =>
      r.pc.Walking? && |outcomes| == |r.pc.calls| && sh.aborted && AbortPolicy(sh).Deny? ==>
        Deniable(WalkStep(r.w, r.pc.calls, outcomes).w.st)
    case _ => true
  }

  // ---------------------------------------------------------------- moves

  lemma CalmAcceptable(st: RunState)
    requires st.pending == [] && Accepted(st.messages)
    ensures Acceptable(st)
  {
    CompletableAccepted(st);
  }

  lemma SeedPasses(sh: Shared, r: Run, system: string)
    requires r.pc.Seeding? && Passes(r)
    ensures Passes(DoSeed(sh, r, system).1)
  {
    var head := if system == "" then [] else [System(system)];
    PlainAccepted(head);
    ConcatAccepted(head, r.pc.seed);
    assert [] + (head + r.pc.seed) == head + r.pc.seed;
  }

  lemma EnterPasses(r: Run, w: Work)
    requires w.buf == w.st.messages && Accepted(w.buf)
    ensures Passes(EnterLoop(r, w))
  {
  }

  lemma ResumedPasses(r: Run, o: Outcome)
    requires OutcomeCompletes(o) && GuardedOutcome(o)
    ensures Passes(Resumed(r, o))
  {
    if o.Enter? {
      CompletableAccepted(o.w.st);
      EnterPasses(r, o.w);
    }
  }

  lemma ResumptionPasses(c: Config, sh: Shared, r: Run, m: Move)
    requires Enabled(c, sh, r, m) && m.Resumption? && Passes(r) && Guarded(r.w.st)
    ensures Passes(Step(c, sh, r, m).1)
  {
    var f := FoldAll(r.w, m.folds);
    ResumeGuarded(f, r.directive, m.children);
    ResumeCompletes(f, r.directive, m.children);
    ResumedPasses(r, ResumeWith(r.w, r.directive, m.children, m.folds, m.throws));
  }

  lemma CancelCalm(w: Work, policy: Policy)
    requires w.buf == w.st.messages && Accepted(w.buf) && w.st.pending == []
    ensures var r := Cancel(w, policy); r.buf == r.st.messages && Acceptable(r.st)
  {
    CompletableAccepted(w.st);
    OwnDeniable(w.st);
    CancelCompletes(w, policy);
  }

  lemma LeavePasses(r: Run)
    requires r.w.buf == r.w.st.messages && Acceptable(r.w.st)
    ensures Passes(LeaveLoop(r))
  {
  }

  lemma FailPasses(r: Run)
    requires r.w.buf == r.w.st.messages
    ensures Passes(FailRun(r)) && Passes(FailRun(r).(pc := Gone))
  {
  }

  lemma TopCancelPasses(sh: Shared, r: Run)
    requires r.pc.LoopTop? && Passes(r) && Calm(r.w.st)
    ensures Passes(TopCancel(sh, r))
  {
    CancelCalm(r.w, AbortPolicy(sh));
    LeavePasses(r.(w := Cancel(r.w, AbortPolicy(sh))));
  }

  lemma TopOpenPasses(r: Run, steer: seq<Message>)
    requires r.pc.LoopTop? && Passes(r) && Accepted(steer)
    ensures Passes(TopOpen(steer, r))
  {
    ConcatAccepted(r.w.buf, steer);
  }

  lemma TopPasses(c: Config, sh: Shared, r: Run)
    requires r.pc.LoopTop? && Passes(r) && Calm(r.w.st) && Accepted(sh.steer)
    ensures Passes(DoTop(c, sh, r).1)
  {
    if Stop(c, r.w.st) {
      CalmAcceptable(r.w.st);
      LeavePasses(r);
    } else if sh.aborted {
      TopCancelPasses(sh, r);
    } else if Breach(r.budget, r.w.st.usage) {
      FailPasses(r);
    } else {
      TopOpenPasses(r, sh.steer);
    }
  }

  lemma OpeningPasses(c: Config, sh: Shared, r: Run, m: Move)
    requires Enabled(c, sh, r, m) && IsOpening(m) && Passes(r)
    requires CalmAt(r.pc, r.resumed, r.w.st) && Accepted(sh.steer)
    ensures Passes(Step(c, sh, r, m).1)
  {
    match m {
      case SeedDone(system) => SeedPasses(sh, r, system);
      case SeedThrow =>
      case Screen(blocked) => FailPasses(r); EnterPasses(r, r.w);
      case ScreenThrow =>
      case Resumption(_, _, _) => ResumptionPasses(c, sh, r, m);
      case Top => TopPasses(c, sh, r);
    }
  }

  lemma RequestPasses(c: Config, sh: Shared, r: Run, m: Move)
    requires Enabled(c, sh, r, m) && IsRequest(m) && Fair(sh, r, m) && Passes(r)
    ensures Passes(Step(c, sh, r, m).1)
  {
    match m {
      case Prepare(trims) => ShrinkAllClear(r.w, r.prefix, trims);
      case Retry(trim) => ShrinkClear(r.w, r.prefix, trim);
      case _ =>
    }
  }

  lemma FailurePasses(c: Config, sh: Shared, r: Run, m: Move)
    requires Enabled(c, sh, r, m) && IsFailure(m) && Passes(r)
    ensures Passes(Step(c, sh, r, m).1)
  {
    match m {
      case ChainFail(model, spent) => FailPasses(if spent.total == 0 then r else Truncated(r, model, spent));
      case ChainNone => FailPasses(r);
      case CommitThrow(said, model, cost) => FailPasses(CommitThrown(r, said, model, cost));
      case WalkThrow(done, outcomes) =>
        WalkAllMirrors(Walk(r.w, [], 0), r.pc.calls[..done], outcomes);
        FailPasses(r.(w := WalkAll(Walk(r.w, [], 0), r.pc.calls[..done], outcomes).w));
      case StepThrow => FailPasses(r);
    }
  }

  lemma ReplyPasses(r: Run, text: string, calls: seq<CallId>, model: string, cost: Usage)
    requires r.pc.Chaining? && Passes(r)
    ensures Passes(DoChainDone(r, text, calls, model, cost))
  {
    ReplyOpens(r.w.buf, text, calls);
    if calls == [] {
      assert ToSet(calls) == {};
      NothingLeft(r.w.buf + [Assistant(text, calls)]);
    }
  }

  lemma WalkPasses(sh: Shared, r: Run, outcomes: seq<Disposition>)
    requires r.pc.Walking? && |outcomes| == |r.pc.calls| && Passes(r) && Calm(r.w.st)
    requires Fair(sh, r, WalkDone(outcomes))
    ensures Passes(Walked(sh, r, WalkStep(r.w, r.pc.calls, outcomes)))
  {
    var k := WalkStep(r.w, r.pc.calls, outcomes);
    WalkCompletes(r.w, r.pc.calls, outcomes);
    WalkGuarded(r.w, r.pc.calls, outcomes);
    WalkExtends(r.w, r.pc.calls, outcomes);
    if k.requested == 0 {
      CompletableAccepted(k.w.st);
    } else if sh.aborted {
      CancelCompletes(k.w, AbortPolicy(sh));
    }
  }

  lemma ClosePasses(r: Run, again: bool, feedback: string)
    requires r.pc.Closing? && Passes(r) && Calm(r.w.st)
    ensures Passes(DoClose(r, again, feedback))
  {
    if r.pc.calls == [] && again {
      PlainLastAccepted(r.w.buf, User(feedback));
    } else if r.pc.calls == [] {
      CalmAcceptable(WithStatus(r.w, Completed).st);
    }
  }

  lemma FinalizePasses(r: Run, rejected: bool)
    requires r.pc.Finalizing? && Passes(r)
    ensures Passes(DoFinalize(r, rejected))
  {
  }

  lemma ClosingPasses(c: Config, sh: Shared, r: Run, m: Move)
    requires Enabled(c, sh, r, m) && IsClosing(m) && Fair(sh, r, m) && Passes(r)
    requires CalmAt(r.pc, r.resumed, r.w.st)
    ensures Passes(Step(c, sh, r, m).1)
  {
    match m {
      case ChainAbort => CancelCalm(r.w, AbortPolicy(sh));
      case ChainDone(text, calls, model, cost) => ReplyPasses(r, text, calls, model, cost);
      case WalkDone(outcomes) => WalkPasses(sh, r, outcomes);
      case Close(again, feedback) => ClosePasses(r, again, feedback);
      case Finalize(rejected) => FinalizePasses(r, rejected);
      case FinalizeThrow =>
      case Finish =>
    }
  }

  /** Every fair move keeps the run on accepted transcripts. */
  lemma MoveKeepsPassing(c: Config, sh: Shared, r: Run, m: Move)
    requires Enabled(c, sh, r, m) && Fair(sh, r, m) && Passes(r)
    requires CalmAt(r.pc, r.resumed, r.w.st) && Accepted(sh.steer)
    ensures Passes(Step(c, sh, r, m).1)
  {
    if IsOpening(m) {
      OpeningPasses(c, sh, r, m);
    } else if IsRequest(m) {
      RequestPasses(c, sh, r, m);
    } else if IsFailure(m) {
      FailurePasses(c, sh, r, m);
    } else {
      ClosingPasses(c, sh, r, m);
    }
  }

  // ---------------------------------------------------------------- requests

  ghost predicate AcceptedRequests(qs: seq<Request>) {
    forall q | q in qs :: Accepted(q.messages)
  }

  lemma AskedAccepted(c: Config, sh: Shared, r: Run, m: Move)
    requires GoodConfig(c) && Enabled(c, sh, r, m) && (m.Send? || m.Retry? || m.Fallback?)
    requires Passes(Step(c, sh, r, m).1) && AcceptedRequests(r.requests)
    ensures AcceptedRequests(Step(c, sh, r, m).1.requests)
  {
    var r' := Step(c, sh, r, m).1;
    assert r'.requests == r.requests + [Request(r'.w.buf + c.trailer, r'.w.st)];
    PlainAccepted(c.trailer);
    ConcatAccepted(r'.w.buf, c.trailer);
  }

  lemma RequestsStayAccepted(c: Config, sh: Shared, r: Run, m: Move)
    requires GoodConfig(c) && Enabled(c, sh, r, m)
    requires Passes(Step(c, sh, r, m).1) && AcceptedRequests(r.requests)
    ensures AcceptedRequests(Step(c, sh, r, m).1.requests)
  {
    if m.Send? || m.Retry? || m.Fallback? {
      AskedAccepted(c, sh, r, m);
    } else if IsOpening(m) {
      OpeningRequests(c, sh, r, m);
    } else {
      OtherRequests(c, sh, r, m);
    }
  }
}
