/** Exactly when cancelling and resuming keep what they promise, and states at which they do not. */
module ResumeExact {
  import opened Options
  import opened Transcript
  import opened RunStates
  import opened Approvals
  import opened Resume

  // ---------------------------------------------------------------- denying on abort

  /** Denials append one tool message each. */
  lemma {:induction false} DenyAllShape(w: Work, denied: seq<Approval>)
    ensures DenyAll(w, denied).st.messages == w.st.messages + ToolsOf(CallIds(denied))
  {
    if denied != [] {
      var n := |denied| - 1;
      DenyAllShape(w, denied[..n]);
      assert ToolsOf(CallIds(denied)) == ToolsOf(CallIds(denied[..n])) + [Tool(denied[n].callId)];
    }
  }

  /** For every state, denying on abort yields an acceptable transcript exactly when every pending id
      was announced and nothing else announced lacks an answer. */
  lemma DenyAcceptedExactly(w: Work)
    ensures Accepted(Cancel(w, Deny).st.messages) <==> Completes(w.st.messages, ToSet(CallIds(w.st.pending)))
  {
    DenyAllShape(w, w.st.pending);
    ToolsAccepted(w.st.messages, CallIds(w.st.pending));
  }

  /** So when child ids are the children's own, it repairs the transcript exactly when no sub-agent
      run is parked: a mirrored approval carries an id the parent never announced. */
  lemma DenyRepairsExactly(w: Work)
    requires w.buf == w.st.messages && Resumable(w.st)
    requires forall a | a in w.st.pending && a.path != [] ::
               a.path[0] in w.st.parks && !Announced(w.st.messages, a.callId)
    ensures Accepted(Cancel(w, Deny).st.messages) <==> w.st.parks == []
  {
    if w.st.parks == [] {
      CancelSafe(w, Deny);
      GroupedIsDocumented(Cancel(w, Deny).st.messages);
    } else {
      DenyAcceptedExactly(w);
      assert HasMirror(w.st.pending, w.st.parks[0]);
      var a :| a in w.st.pending && a.path != [];
      var k :| 0 <= k < |w.st.pending| && w.st.pending[k] == a;
      assert CallIds(w.st.pending)[k] == a.callId;
    }
  }

  /** Abort with the default policy while a sub-agent run is parked: the child's call id is answered
      in the parent, the parked call never is, and the aborted state re-enters the loop. */
  lemma DenyStrandsParkedRun()
    ensures var st := FRESH.(status := AwaitingApproval, messages := [User("go"), Assistant("", ["p"])],
                             parks := ["p"], pending := [Approval("c", ["p"])]);
            var aborted := Cancel(Work(st, st.messages, ZERO), Deny);
            Resumable(st) && ResumeRun(aborted, None, map[]) == Enter(aborted) && !Accepted(aborted.buf)
  {
    var ms := [User("go"), Assistant("", ["p"])];
    var st := FRESH.(status := AwaitingApproval, messages := ms, parks := ["p"], pending := [Approval("c", ["p"])]);
    ScanAppend([], User("go"));
    ScanAppend([User("go")], Assistant("", ["p"]));
    assert [] + [User("go")] == [User("go")] && [User("go")] + [Assistant("", ["p"])] == ms;
    assert ToSet(["p"]) == {"p"};
    assert ScanAll(ms) == Group({"p"}, {"p"});
    assert st.pending[0] in st.pending && HasMirror(st.pending, "p");
    assert Own(st.pending) + ToSet(st.parks) == {"p"};
    var w := Work(st, ms, ZERO);
    var aborted := Cancel(w, Deny);
    assert !Announced(ms, "c");
    DenyAcceptedExactly(w);
    assert CallIds(st.pending)[0] == "c";
    assert aborted.buf == aborted.st.messages;
  }

  // ---------------------------------------------------------------- what a directive writes

  ghost predicate Grants(ds: seq<Decision>, a: Approval) {
    LastSays(ds, a, true)
  }

  ghost predicate Denies(ds: seq<Decision>, a: Approval) {
    LastSays(ds, a, false)
  }

  /** The verdict is granted, denied or missing. */
  lemma Verdicts(ds: seq<Decision>, a: Approval)
    ensures Lookup(ds, a) == Some(true) <==> Grants(ds, a)
    ensures Lookup(ds, a) == Some(false) <==> Denies(ds, a)
    ensures Lookup(ds, a) == None <==> !Named(ds, a)
  {
    LookupExactly(ds, a, true);
    LookupExactly(ds, a, false);
  }

  ghost function DeniedIds(pending: seq<Approval>, ds: seq<Decision>): seq<CallId> {
    if pending == [] then []
    else
      var a := pending[|pending| - 1];
      DeniedIds(pending[..|pending| - 1], ds) + if a.path == [] && Denies(ds, a) then [a.callId] else []
  }

  /** Own calls and parked parents that the directive decides. */
  ghost function DecidedIds(pending: seq<Approval>, ds: seq<Decision>): set<CallId> {
    set a | a in pending && Named(ds, a) :: Head(a)
  }

  lemma ToolsSnoc(ids: seq<CallId>, id: CallId)
    ensures ToolsOf(ids + [id]) == ToolsOf(ids) + [Tool(id)]
  {
  }

  lemma ToolMember(ids: seq<CallId>, id: CallId)
    ensures Tool(id) in ToolsOf(ids) <==> id in ids
  {
    if id in ids {
      var k :| 0 <= k < |ids| && ids[k] == id;
      assert ToolsOf(ids)[k] == Tool(id);
    }
  }

  lemma {:induction false} DecideMessages(w: Work, pending: seq<Approval>, ds: seq<Decision>)
    requires w.buf == w.st.messages
    ensures var d := DecideAll(w, pending, ds);
            d.w.buf == d.w.st.messages == w.st.messages + ToolsOf(DeniedIds(pending, ds))
  {
    if pending != [] {
      var n := |pending| - 1;
      DecideMessages(w, pending[..n], ds);
      Verdicts(ds, pending[n]);
      ToolsSnoc(DeniedIds(pending[..n], ds), pending[n].callId);
      assert DeniedIds(pending[..n], ds) + [] == DeniedIds(pending[..n], ds);
    }
  }

  /** An id is denied only where its own approval is. */
  lemma {:induction false} DeniedExactly(pending: seq<Approval>, ds: seq<Decision>, id: CallId)
    ensures id in DeniedIds(pending, ds) <==> Approval(id, []) in pending && Denies(ds, Approval(id, []))
  {
    if pending != [] {
      var n := |pending| - 1;
      DeniedExactly(pending[..n], ds, id);
      assert pending == pending[..n] + [pending[n]];
    }
  }

  lemma DenialsAreForeign(w: Work, pending: seq<Approval>, ds: seq<Decision>, id: CallId)
    requires w.buf == w.st.messages && !Denies(ds, Approval(id, []))
    ensures Tool(id) in DecideAll(w, pending, ds).w.buf <==> Tool(id) in w.st.messages
  {
    DecideMessages(w, pending, ds);
    DeniedExactly(pending, ds, id);
    ToolMember(DeniedIds(pending, ds), id);
  }

  /** Exactly when a granted call is dispatched: it is pending, and does not look as if it had run. */
  lemma {:induction false} GrantedExactly(w: Work, pending: seq<Approval>, ds: seq<Decision>, id: CallId)
    requires w.buf == w.st.messages
    ensures id in DecideAll(w, pending, ds).granted <==>
            Approval(id, []) in pending && Grants(ds, Approval(id, [])) && !Replayable(w.st, id)
  {
    if pending != [] {
      var n := |pending| - 1;
      GrantedExactly(w, pending[..n], ds, id);
      Verdicts(ds, pending[n]);
      assert pending == pending[..n] + [pending[n]];
      if pending[n] == Approval(id, []) && Grants(ds, pending[n]) {
        DenialsAreForeign(w, pending[..n], ds, id);
      }
    }
  }

  /** A granted call of the run is skipped, and never run, exactly when its id is journaled and already
      answered in the buffer. */
  lemma SkippedExactly(w: Work, ds: seq<Decision>, id: CallId)
    requires w.buf == w.st.messages && Approval(id, []) in w.st.pending && Grants(ds, Approval(id, []))
    ensures id !in ApplyDirective(w, ds).granted <==> Replayable(w.st, id)
  {
    GrantedExactly(w, w.st.pending, ds, id);
  }

  /** A provider that reuses a call id defeats the journal check: the granted call counts as already
      run, is never executed, and the two-set pass does not notice. */
  lemma ReusedIdIsNeverRun()
    ensures var st := FRESH.(status := AwaitingApproval,
                             messages := [Assistant("", ["x"]), Tool("x"), Assistant("", ["x"])],
                             steps := [StepRec(1, ZERO, ["x"])], pending := [Approval("x", [])]);
            var r := ResumeRun(Work(st, st.messages, ZERO), Some([Decision("x", [], true)]), map[]);
            r.Enter? && r.w.buf == st.messages && Accepted(r.w.buf) && !Documented(r.w.buf)
  {
    var ms := [Assistant("", ["x"]), Tool("x"), Assistant("", ["x"])];
    var a := Approval("x", []);
    var steps := [StepRec(1, ZERO, ["x"])];
    var st := FRESH.(status := AwaitingApproval, messages := ms, steps := steps, pending := [a]);
    var w := Work(st, ms, ZERO);
    var ds := [Decision("x", [], true)];
    assert steps[0] in steps && "x" in steps[0].calls;
    assert ms[1] == Tool("x");
    assert [a][..0] == [] && ds[..0] == [];
    assert DecideAll(w, [a], ds) == Directed(w, [], [], []);
    ReopenedIdSlipsThrough();
  }

  lemma {:induction false} RoutedExactly(w: Work, pending: seq<Approval>, ds: seq<Decision>, p: CallId)
    ensures p in DecideAll(w, pending, ds).routed <==>
            exists a | a in pending :: a.path != [] && a.path[0] == p && Named(ds, a)
  {
    if pending != [] {
      var n := |pending| - 1;
      RoutedExactly(w, pending[..n], ds, p);
      Verdicts(ds, pending[n]);
      assert pending == pending[..n] + [pending[n]];
    }
  }

  /** Exactly the approvals the directive does not mention stay pending. */
  lemma {:induction false} StillExactly(w: Work, pending: seq<Approval>, ds: seq<Decision>, a: Approval)
    ensures a in DecideAll(w, pending, ds).still <==> a in pending && !Named(ds, a)
  {
    if pending != [] {
      var n := |pending| - 1;
      StillExactly(w, pending[..n], ds, a);
      Verdicts(ds, pending[n]);
      assert pending == pending[..n] + [pending[n]];
    }
  }

  // ---------------------------------------------------------------- what a resume enters with

  lemma {:induction false} AnswerMessages(w: Work, ids: seq<CallId>)
    requires w.buf == w.st.messages
    ensures AnswerAll(w, ids).buf == AnswerAll(w, ids).st.messages == w.st.messages + ToolsOf(ids)
  {
    if ids != [] {
      var n := |ids| - 1;
      AnswerMessages(w, ids[..n]);
      ToolsSnoc(ids[..n], ids[n]);
      assert ids == ids[..n] + [ids[n]];
    }
  }

  /** Unless `r` waits for approvals, it is `w` with the calls `ids` answered. */
  ghost predicate AnswersOf(w: Work, r: Work, ids: seq<CallId>) {
    !r.st.status.AwaitingApproval? ==>
      && !w.st.status.AwaitingApproval?
      && (w.buf == w.st.messages ==> r.buf == r.st.messages && r.buf == w.st.messages + ToolsOf(ids))
  }

  lemma AnswersSnoc(w: Work, f: Work, r: Work, ids: seq<CallId>)
    requires ids != [] && AnswersOf(w, f, ids[..|ids| - 1]) && AnswersOf(f, r, [ids[|ids| - 1]])
    ensures AnswersOf(w, r, ids)
  {
    var n := |ids| - 1;
    assert ToolsOf(ids) == ToolsOf(ids[..n]) + ToolsOf([ids[n]]);
  }

  lemma SettleOneAnswers(w: Work, park: CallId, child: Child)
    ensures AnswersOf(w, SettleOne(w, park, child), [park])
  {
    assert ToolsOf([park]) == [Tool(park)];
  }

  lemma SettleSnoc(w: Work, heads: seq<CallId>, children: map<CallId, Child>)
    requires heads != [] && SettleAll(w, heads, children).AllSettled?
    ensures var n := |heads| - 1;
            var f := SettleAll(w, heads[..n], children);
            f.AllSettled? && heads[n] in children &&
            SettleAll(w, heads, children).w == SettleOne(f.w, heads[n], children[heads[n]])
  {
  }

  /** Sub-runs that all end answer their parked calls; one that parks again suspends the parent. */
  lemma {:induction false} SettleAnswers(w: Work, heads: seq<CallId>, children: map<CallId, Child>)
    requires SettleAll(w, heads, children).AllSettled?
    ensures AnswersOf(w, SettleAll(w, heads, children).w, heads)
  {
    if heads == [] {
      assert w.st.messages + ToolsOf([]) == w.st.messages;
    } else {
      var n := |heads| - 1;
      SettleSnoc(w, heads, children);
      var f := SettleAll(w, heads[..n], children).w;
      SettleAnswers(w, heads[..n], children);
      SettleOneAnswers(f, heads[n], children[heads[n]]);
      AnswersSnoc(w, f, SettleAll(w, heads, children).w, heads);
    }
  }

  lemma ToolsConcat(a: seq<CallId>, b: seq<CallId>)
    ensures ToolsOf(a + b) == ToolsOf(a) + ToolsOf(b)
  {
  }

  lemma DispatchedMessages(d: Directed)
    requires d.w.buf == d.w.st.messages
    ensures Dispatched(d).buf == Dispatched(d).st.messages
    ensures Dispatched(d).buf == d.w.st.messages + ToolsOf(d.granted)
  {
    AnswerMessages(BeginStep(d.w), d.granted);
  }

  lemma RoutedMessages(d: Directed, children: map<CallId, Child>)
    requires Dispatched(d).buf == Dispatched(d).st.messages && Routed(d, children).AllSettled?
    requires !Routed(d, children).w.st.status.AwaitingApproval?
    ensures Routed(d, children).w.buf == Dispatched(d).st.messages + ToolsOf(d.routed)
  {
    if d.routed != [] {
      SettleAnswers(BeginStep(Dispatched(d)), d.routed, children);
    }
  }

  lemma EnteredMessages(d: Directed, children: map<CallId, Child>)
    requires d.w.buf == d.w.st.messages && AfterDirective(d, children).Enter?
    ensures AfterDirective(d, children).w.buf == d.w.st.messages + ToolsOf(d.granted + d.routed)
  {
    DispatchedMessages(d);
    assert Routed(d, children) == AllSettled(AfterDirective(d, children).w);
    RoutedMessages(d, children);
    ToolsConcat(d.granted, d.routed);
  }

  /** Answering ids that were answered already changes nothing. */
  lemma CompletesMore(ms: seq<Message>, a: set<CallId>, b: set<CallId>)
    requires a <= b && forall id | id in b - a :: ResolvedSomewhere(ms, id)
    ensures Completes(ms, a) <==> Completes(ms, b)
  {
    if NoOrphan(ms) {
      forall id | id in b - a
        ensures Announced(ms, id)
      {
        var j :| 0 <= j < |ms| && ms[j] == Tool(id);
        assert AnnouncedBefore(ms, j, ms[j].callId);
      }
    }
  }

  lemma OwnDecisionLands(w: Work, ds: seq<Decision>, a: Approval)
    requires w.buf == w.st.messages && a in w.st.pending && Named(ds, a) && a == Approval(a.callId, [])
    ensures || a.callId in DeniedIds(w.st.pending, ds) || a.callId in DecideAll(w, w.st.pending, ds).granted
            || ResolvedSomewhere(w.st.messages, a.callId)
  {
    NamedIsDecided(ds, a);
    if Denies(ds, a) {
      DeniedExactly(w.st.pending, ds, a.callId);
    } else {
      GrantedExactly(w, w.st.pending, ds, a.callId);
    }
  }

  lemma NamedIsDecided(ds: seq<Decision>, a: Approval)
    requires Named(ds, a)
    ensures Grants(ds, a) || Denies(ds, a)
  {
    match Lookup(ds, a) {
      case None => LookupExactly(ds, a, true);
      case Some(v) => LookupExactly(ds, a, v);
    }
  }

  /** A decision is written, routed, or for a call that looks as if it had run. */
  lemma DecisionLands(w: Work, ds: seq<Decision>, a: Approval)
    requires w.buf == w.st.messages && a in w.st.pending && Named(ds, a)
    ensures var d := DecideAll(w, w.st.pending, ds);
            var id := Head(a);
            || id in DeniedIds(w.st.pending, ds) || id in d.granted || id in d.routed
            || ResolvedSomewhere(w.st.messages, id)
  {
    if a.path == [] {
      assert a == Approval(a.callId, []);
      OwnDecisionLands(w, ds, a);
    } else {
      RoutedExactly(w, w.st.pending, ds, a.path[0]);
    }
  }

  lemma LandedIsDecided(w: Work, ds: seq<Decision>, id: CallId)
    requires w.buf == w.st.messages
    requires var d := DecideAll(w, w.st.pending, ds);
             id in DeniedIds(w.st.pending, ds) || id in d.granted || id in d.routed
    ensures id in DecidedIds(w.st.pending, ds)
  {
    DeniedExactly(w.st.pending, ds, id);
    GrantedExactly(w, w.st.pending, ds, id);
    RoutedExactly(w, w.st.pending, ds, id);
  }

  lemma WrittenIds(w: Work, ds: seq<Decision>)
    requires w.buf == w.st.messages
    ensures var d := DecideAll(w, w.st.pending, ds);
            var ids := ToSet(DeniedIds(w.st.pending, ds) + (d.granted + d.routed));
            ids <= DecidedIds(w.st.pending, ds) &&
            forall id | id in DecidedIds(w.st.pending, ds) - ids :: ResolvedSomewhere(w.st.messages, id)
  {
    var d := DecideAll(w, w.st.pending, ds);
    var ids := ToSet(DeniedIds(w.st.pending, ds) + (d.granted + d.routed));
    forall id | id in ids
      ensures id in DecidedIds(w.st.pending, ds)
    {
      LandedIsDecided(w, ds, id);
    }
    forall id | id in DecidedIds(w.st.pending, ds) - ids
      ensures ResolvedSomewhere(w.st.messages, id)
    {
      var a :| a in w.st.pending && Named(ds, a) && id == Head(a);
      DecisionLands(w, ds, a);
    }
  }

  /** For every state and directive: the transcript a resume enters the loop with is acceptable exactly
      when the calls and parks it decides complete the transcript it started from. */
  lemma EnteredExactly(w: Work, ds: seq<Decision>, children: map<CallId, Child>)
    requires w.buf == w.st.messages && w.st.pending != [] && ResumeRun(w, Some(ds), children).Enter?
    ensures Accepted(ResumeRun(w, Some(ds), children).w.buf) <==> Completes(w.st.messages, DecidedIds(w.st.pending, ds))
  {
    var d := ApplyDirective(w, ds);
    var denied := DeniedIds(w.st.pending, ds);
    var ids := denied + (d.granted + d.routed);
    DecideMessages(w, w.st.pending, ds);
    EnteredMessages(d, children);
    ToolsConcat(denied, d.granted + d.routed);
    assert ResumeRun(w, Some(ds), children).w.buf == w.st.messages + ToolsOf(ids);
    ToolsAccepted(w.st.messages, ids);
    WrittenIds(w, ds);
    CompletesMore(w.st.messages, ToSet(ids), DecidedIds(w.st.pending, ds));
  }

  // ---------------------------------------------------------------- failed runs

  lemma {:induction false} SettleNeverFails(w: Work, heads: seq<CallId>, children: map<CallId, Child>)
    requires !w.st.status.Failed?
    ensures !SettleAll(w, heads, children).w.st.status.Failed?
  {
    if heads != [] {
      SettleNeverFails(w, heads[..|heads| - 1], children);
    }
  }

  lemma AfterDirectiveNeverFails(d: Directed, children: map<CallId, Child>)
    requires !d.w.st.status.Failed?
    ensures !AfterDirective(d, children).w.st.status.Failed?
  {
    AnswerAllKeepsStatus(BeginStep(d.w), d.granted);
    SettleNeverFails(BeginStep(Dispatched(d)), d.routed, children);
  }

  /** A failed run is documented never to come back. It returns still failed exactly unless a directive
      decides every approval pending on it, because decisions reset the status before the guard. */
  lemma FailedRunReenters(w: Work, directive: Option<seq<Decision>>, children: map<CallId, Child>)
    requires w.st.status.Failed?
    ensures var r := ResumeRun(w, directive, children);
            r.Return? && r.w.st.status.Failed? <==>
            !Decides(directive, w.st.pending)
  {
    if directive.Some? && w.st.pending != [] {
      StillUncovered(w, w.st.pending, directive.value);
      DirectiveKeepsStatus(w, w.st.pending, directive.value);
      var d := ApplyDirective(w, directive.value);
      if Covers(directive.value, w.st.pending) {
        AfterDirectiveNeverFails(d, children);
      }
    }
  }

  lemma CoversDecides(pending: seq<Approval>, ds: seq<Decision>)
    requires Covers(ds, pending)
    ensures DecidedIds(pending, ds) == Heads(pending)
  {
  }

  /** And a failed run that re-enters carries an acceptable transcript exactly when its own pending
      calls and the parents of its mirrored ones complete the transcript it failed with. */
  lemma FailedRunEntersExactly(w: Work, ds: seq<Decision>, children: map<CallId, Child>)
    requires w.buf == w.st.messages && w.st.status.Failed? && ResumeRun(w, Some(ds), children).Enter?
    ensures Covers(ds, w.st.pending) && w.st.pending != []
    ensures Accepted(ResumeRun(w, Some(ds), children).w.buf) <==>
            Completes(w.st.messages, Heads(w.st.pending))
  {
    FailedRunReenters(w, Some(ds), children);
    EnteredExactly(w, ds, children);
    CoversDecides(w.st.pending, ds);
  }

  lemma FirstGrantDropped(w: Work, ms: seq<Message>)
    requires w.st == FRESH.(status := Failed, messages := ms, pending := [Approval("a", []), Approval("b", [])])
    requires w.buf == ms
    ensures ResumeRun(w, Some([Decision("a", [], true)]), map[]) ==
            Return(w.(st := w.st.(pending := [Approval("b", [])])))
  {
    var a, b := Approval("a", []), Approval("b", []);
    var ds := [Decision("a", [], true)];
    assert ds[..0] == [];
    assert [a, b][..1] == [a] && [a][..0] == [];
    assert DecideAll(w, [a], ds) == Directed(w, ["a"], [], []);
    assert DecideAll(w, [a, b], ds) == Directed(w, ["a"], [], [b]);
  }

  lemma SecondDenied(w: Work)
    requires w.st.pending == [Approval("b", [])] && w.st.parks == []
    ensures var w2 := Say(w, Tool("b"));
            ResumeRun(w, Some([Decision("b", [], false)]), map[]) ==
            Enter(w2.(st := w2.st.(pending := [], status := Running)))
  {
    var b := Approval("b", []);
    var ds := [Decision("b", [], false)];
    assert ds[..0] == [] && [b][..0] == [];
    assert DecideAll(w, [b], ds) == Directed(Say(w, Tool("b")), [], [], []);
  }

  lemma SecondStrands(w: Work)
    requires w.st.pending == [Approval("b", [])] && w.st.parks == []
    requires w.buf == w.st.messages == [User("go"), Assistant("", ["a", "b"])]
    ensures var r := ResumeRun(w, Some([Decision("b", [], false)]), map[]); r.Enter? && !Accepted(r.w.buf)
  {
    var out := w.buf + [Tool("b")];
    var second := ResumeRun(w, Some([Decision("b", [], false)]), map[]);
    assert second.Enter? && second.w.buf == out by { SecondDenied(w); }
    assert "a" in Announces(out[1]) && !ResolvedSomewhere(out, "a");
  }

  /** A failed run with two approvals: granting one alone drops it without running it; deciding the
      other afterwards re-enters the loop with the first call unanswered. */
  lemma FailedRunStrandsGrant(w: Work, w1: Work)
    requires w == Work(FRESH.(status := Failed, messages := [User("go"), Assistant("", ["a", "b"])],
                              pending := [Approval("a", []), Approval("b", [])]),
                       [User("go"), Assistant("", ["a", "b"])], ZERO)
    requires w1 == w.(st := w.st.(pending := [Approval("b", [])]))
    ensures ResumeRun(w, Some([Decision("a", [], true)]), map[]) == Return(w1)
    ensures var r := ResumeRun(w1, Some([Decision("b", [], false)]), map[]); r.Enter? && !Accepted(r.w.buf)
  {
    assert ResumeRun(w, Some([Decision("a", [], true)]), map[]) == Return(w1) by { FirstGrantDropped(w, w.buf); }
    SecondStrands(w1);
  }

  // ---------------------------------------------------------------- the guard

  /** Resuming without decisions enters the loop exactly when the run neither failed nor waits, and
      then with the transcript as it is: documented exactly when no call is open, accepted exactly
      when every open id was answered before. */
  lemma GuardExactly(w: Work)
    requires w.buf == w.st.messages && ScanAll(w.st.messages).Group?
    ensures ResumeRun(w, None, map[]).Enter? <==>
            && !w.st.status.Failed? && !w.st.status.AwaitingApproval?
            && (w.st.status.Aborted? ==> w.st.pending == [])
    ensures ResumeRun(w, None, map[]).w == w
    ensures Documented(w.buf) <==> OpenIds(w.st.messages) == {}
    ensures Accepted(w.buf) <==> forall id | id in OpenIds(w.st.messages) :: Tool(id) in w.st.messages
  {
    ScanVerdict(w.st.messages);
  }

  /** The guard is wrong exactly on states that neither failed nor wait and still owe an answer. */
  lemma GuardFailsExactly(w: Work)
    requires w.buf == w.st.messages && ScanAll(w.st.messages).Group?
    ensures var r := ResumeRun(w, None, map[]);
            r.Enter? && !Documented(r.w.buf) <==>
            && !w.st.status.Failed? && !w.st.status.AwaitingApproval?
            && (w.st.status.Aborted? ==> w.st.pending == []) && OpenIds(w.st.messages) != {}
  {
    GuardExactly(w);
  }

  /** A resumed run torn down while it collects approvals leaves the caller's state 'running' with
      one pending: resuming that object again slips past the guard. */
  lemma AbandonedStateSlipsThrough()
    ensures var st := FRESH.(messages := [User("go"), Assistant("", ["a"])], pending := [Approval("a", [])]);
            var r := ResumeRun(Work(st, st.messages, ZERO), None, map[]);
            r.Enter? && !Accepted(r.w.buf)
  {
    var ms := [User("go"), Assistant("", ["a"])];
    assert "a" in Announces(ms[1]) && !ResolvedSomewhere(ms, "a");
  }

  /** A resume that throws because a parked run's target is missing has already taken the approval off
      the caller's state object and set it running: resuming that object enters the loop with the
      parked call unanswered. */
  lemma ThrownResumeSlipsThrough()
    ensures var st := FRESH.(status := AwaitingApproval, messages := [User("go"), Assistant("", ["p"])],
                             parks := ["p"], pending := [Approval("c", ["p"])]);
            var thrown := ResumeRun(Work(st, st.messages, ZERO), Some([Decision("c", ["p"], true)]), map[]);
            thrown.Threw? && thrown.w.st.status.Running? && thrown.w.st.pending == [] &&
            ResumeRun(thrown.w, None, map[]).Enter? && !Accepted(ResumeRun(thrown.w, None, map[]).w.buf)
  {
    var ms := [User("go"), Assistant("", ["p"])];
    var a := Approval("c", ["p"]);
    var st := FRESH.(status := AwaitingApproval, messages := ms, parks := ["p"], pending := [a]);
    var w := Work(st, ms, ZERO);
    var ds := [Decision("c", ["p"], true)];
    assert [a][..0] == [] && ds[..0] == [] && ["p"][..0] == [];
    assert DecideAll(w, [a], ds) == Directed(w, [], ["p"], []);
    assert "p" in Announces(ms[1]) && !ResolvedSomewhere(ms, "p");
  }

  // ---------------------------------------------------------------- the write-ahead intent

  /** The write-ahead intent persisted before granted calls run: the granted approvals are put back. */
  function Intent(d: Directed): RunState {
    d.w.st.(status := AwaitingApproval,
            pending := seq(|d.granted|, i requires 0 <= i < |d.granted| => Approval(d.granted[i], [])) + d.w.st.pending)
  }

  /** Some approval mirrored from the sub-run parked under `p` is not decided. */
  ghost predicate LeftUndecided(pending: seq<Approval>, ds: seq<Decision>, p: CallId) {
    exists a | a in pending :: a.path != [] && a.path[0] == p && !Named(ds, a)
  }

  lemma UndecidedMirror(w: Work, ds: seq<Decision>, p: CallId)
    ensures HasMirror(DecideAll(w, w.st.pending, ds).still, p) <==> LeftUndecided(w.st.pending, ds, p)
  {
    forall a
      ensures a in DecideAll(w, w.st.pending, ds).still <==> a in w.st.pending && !Named(ds, a)
    {
      StillExactly(w, w.st.pending, ds, a);
    }
  }

  lemma IntentDispatchable(w: Work, ds: seq<Decision>)
    requires w.buf == w.st.messages && Dispatchable(w.st)
    ensures Dispatchable(Intent(ApplyDirective(w, ds)))
  {
    var d := ApplyDirective(w, ds);
    DirectiveFollows(w, ds);
    forall id | id in Own(Intent(d).pending)
      ensures id in Own(w.st.pending)
    {
      GrantedExactly(w, w.st.pending, ds, id);
    }
  }

  lemma IntentOwn(d: Directed)
    ensures Own(Intent(d).pending) == ToSet(d.granted) + Own(d.w.st.pending)
  {
    var back := seq(|d.granted|, i requires 0 <= i < |d.granted| => Approval(d.granted[i], []));
    assert Own(back) == ToSet(d.granted) by {
      forall id | id in ToSet(d.granted)
        ensures id in Own(back)
      {
        var i :| 0 <= i < |d.granted| && d.granted[i] == id;
        assert back[i] in back;
      }
    }
    OwnAppend(back, d.w.st.pending);
  }

  lemma IntentMirror(d: Directed, p: CallId)
    ensures HasMirror(Intent(d).pending, p) <==> HasMirror(d.w.st.pending, p)
  {
    if HasMirror(d.w.st.pending, p) {
      var a :| a in d.w.st.pending && a.path != [] && a.path[0] == p;
      assert a in Intent(d).pending;
    }
  }

  /** The intent is a resumable suspended state exactly when the directive leaves every parked run an
      undecided approval: decisions routed into sub-runs are not put back. */
  lemma IntentResumableExactly(w: Work, ds: seq<Decision>)
    requires w.buf == w.st.messages && Resumable(w.st) && !w.st.status.Failed? && w.st.pending != []
    requires ApplyDirective(w, ds).granted != []
    ensures Resumable(Intent(ApplyDirective(w, ds))) <==>
            forall p | p in w.st.parks :: LeftUndecided(w.st.pending, ds, p)
  {
    var d := ApplyDirective(w, ds);
    DirectiveFacts(w, ds);
    DirectiveKeepsParks(w, w.st.pending, ds);
    IntentDispatchable(w, ds);
    IntentOwn(d);
    assert Own(Intent(d).pending) + ToSet(d.w.st.parks) == Own(d.w.st.pending) + ToSet(d.w.st.parks) + ToSet(d.granted);
    forall p
      ensures HasMirror(Intent(d).pending, p) <==> LeftUndecided(w.st.pending, ds, p)
    {
      IntentMirror(d, p);
      UndecidedMirror(w, ds, p);
    }
  }

  lemma {:induction false} DirectiveKeepsParks(w: Work, pending: seq<Approval>, ds: seq<Decision>)
    ensures DecideAll(w, pending, ds).w.st.parks == w.st.parks
  {
    if pending != [] {
      DirectiveKeepsParks(w, pending[..|pending| - 1], ds);
    }
  }

  /** One directive that grants the run's own call and decides the parked run's last approval: the
      intent keeps the park without any approval to resume it by. */
  lemma IntentStrandsPark()
    ensures var st := FRESH.(status := AwaitingApproval, messages := [User("go"), Assistant("", ["a", "p"])],
                             parks := ["p"], pending := [Approval("a", []), Approval("c", ["p"])]);
            var ds := [Decision("a", [], true), Decision("c", ["p"], true)];
            Resumable(st) && !Resumable(Intent(ApplyDirective(Work(st, st.messages, ZERO), ds)))
  {
    var ms := [User("go"), Assistant("", ["a", "p"])];
    var a, c := Approval("a", []), Approval("c", ["p"]);
    var st := FRESH.(status := AwaitingApproval, messages := ms, parks := ["p"], pending := [a, c]);
    var ds := [Decision("a", [], true), Decision("c", ["p"], true)];
    var w := Work(st, ms, ZERO);
    StrandedState(st, ms);
    BothGranted(ds, a, c);
    GrantedFirst(w, ds, a, c);
    IntentResumableExactly(w, ds);
    assert "p" in st.parks && !LeftUndecided(st.pending, ds, "p");
  }

  lemma GrantedFirst(w: Work, ds: seq<Decision>, a: Approval, c: Approval)
    requires w.buf == w.st.messages && w.st.pending == [a, c] && a.path == [] && Grants(ds, a) && w.st.steps == []
    ensures ApplyDirective(w, ds).granted != []
  {
    GrantedExactly(w, w.st.pending, ds, a.callId);
    assert w.st.pending[0] == a && a == Approval(a.callId, []);
    assert !Replayable(w.st, a.callId);
  }

  lemma BothGranted(ds: seq<Decision>, a: Approval, c: Approval)
    requires ds == [Decision(a.callId, a.path, true), Decision(c.callId, c.path, true)] && a != c
    ensures Grants(ds, a) && Grants(ds, c) && Named(ds, c)
  {
    assert Names(ds[0], a) && !Names(ds[1], a) && Names(ds[1], c);
  }

  lemma StrandedState(st: RunState, ms: seq<Message>)
    requires ms == [User("go"), Assistant("", ["a", "p"])]
    requires st == FRESH.(status := AwaitingApproval, messages := ms, parks := ["p"],
                          pending := [Approval("a", []), Approval("c", ["p"])])
    ensures Resumable(st)
  {
    ScanAppend([], User("go"));
    ScanAppend([User("go")], Assistant("", ["a", "p"]));
    assert [] + [User("go")] == [User("go")] && [User("go")] + [Assistant("", ["a", "p"])] == ms;
    assert ScanAll(ms) == Group({"a", "p"}, {"a", "p"}) by { assert ToSet(["a", "p"]) == {"a", "p"}; }
    assert Approval("a", []) == st.pending[0] && Approval("c", ["p"]) == st.pending[1];
    assert Own(st.pending) + ToSet(st.parks) == {"a", "p"};
    assert HasMirror(st.pending, "p");
  }
}
