/** How a directive splits the pending approvals, read from the list of decisions by index, and what
    dispatching and routing then do to every part of the run. */
module DirectiveExact {
  import opened Options
  import opened Transcript
  import opened RunStates
  import opened Approvals
  import opened Resume
  import opened ResumeExact
  import opened WalkExact

  /** The approvals that satisfy `p`, in order. */
  ghost function Keep(pending: seq<Approval>, p: Approval -> bool): seq<Approval> {
    if pending == [] then []
    else
      var n := |pending| - 1;
      Keep(pending[..n], p) + if p(pending[n]) then [pending[n]] else []
  }

  /** The call looks as if it had run: some journal entry records it and a tool message answers it. */
  ghost predicate LooksRun(st: RunState, id: CallId) {
    (exists k | 0 <= k < |st.steps| :: id in st.steps[k].calls) && Tool(id) in st.messages
  }

  lemma LooksRunIsReplayable(st: RunState, id: CallId)
    ensures LooksRun(st, id) <==> Replayable(st, id)
  {
    if LooksRun(st, id) {
      var k :| 0 <= k < |st.steps| && id in st.steps[k].calls;
      assert st.steps[k] in st.steps;
    }
    if Replayable(st, id) {
      var s :| s in st.steps && id in s.calls;
      var k :| 0 <= k < |st.steps| && st.steps[k] == s;
    }
  }

  /** The run's own calls that the last entry naming them grants and that have not run. */
  ghost function GrantedNow(st: RunState, ds: seq<Decision>): Approval -> bool {
    (a: Approval) => a.path == [] && LastSays(ds, a, true) && !LooksRun(st, a.callId)
  }

  ghost function DeniedNow(ds: seq<Decision>): Approval -> bool {
    (a: Approval) => a.path == [] && LastSays(ds, a, false)
  }

  ghost function Unnamed(ds: seq<Decision>): Approval -> bool {
    (a: Approval) => !Named(ds, a)
  }

  lemma CallIdsSnoc(s: seq<Approval>, a: Approval)
    ensures CallIds(s + [a]) == CallIds(s) + [a.callId]
  {
  }

  lemma {:induction false} SplitStill(w: Work, pending: seq<Approval>, ds: seq<Decision>)
    ensures DecideAll(w, pending, ds).still == Keep(pending, Unnamed(ds))
  {
    if pending != [] {
      var n := |pending| - 1;
      SplitStill(w, pending[..n], ds);
      Verdicts(ds, pending[n]);
    }
  }

  lemma {:induction false} SplitDenied(pending: seq<Approval>, ds: seq<Decision>)
    ensures DeniedIds(pending, ds) == CallIds(Keep(pending, DeniedNow(ds)))
  {
    if pending != [] {
      var n := |pending| - 1;
      SplitDenied(pending[..n], ds);
      CallIdsSnoc(Keep(pending[..n], DeniedNow(ds)), pending[n]);
    }
  }

  lemma {:induction false} SplitGranted(w: Work, pending: seq<Approval>, ds: seq<Decision>)
    requires w.buf == w.st.messages
    ensures DecideAll(w, pending, ds).granted == CallIds(Keep(pending, GrantedNow(w.st, ds)))
  {
    if pending != [] {
      var n := |pending| - 1;
      var a := pending[n];
      SplitGranted(w, pending[..n], ds);
      Verdicts(ds, a);
      CallIdsSnoc(Keep(pending[..n], GrantedNow(w.st, ds)), a);
      LooksRunIsReplayable(w.st, a.callId);
      if a.path == [] && Grants(ds, a) {
        assert a == Approval(a.callId, []);
        DenialsAreForeign(w, pending[..n], ds, a.callId);
      }
    }
  }

  lemma {:induction false} SplitFrame(w: Work, pending: seq<Approval>, ds: seq<Decision>)
    ensures var d := DecideAll(w, pending, ds); d.w.acc == w.acc && d.w.st == w.st.(messages := d.w.st.messages)
    ensures Distinct(DecideAll(w, pending, ds).routed)
  {
    if pending != [] {
      SplitFrame(w, pending[..|pending| - 1], ds);
    }
  }

  /** For every state and directive. The denied calls are answered in order, the granted ones that have
      not run are dispatched in order, the undecided approvals stay in order; a sub-run is routed to
      exactly when an approval mirrored from it is named; the run is set going exactly when nothing is
      left; and nothing else changes. */
  lemma DirectiveSplit(w: Work, ds: seq<Decision>)
    requires w.buf == w.st.messages
    ensures var d := ApplyDirective(w, ds);
            var pending := w.st.pending;
            && d.granted == CallIds(Keep(pending, GrantedNow(w.st, ds)))
            && d.w.st.pending == d.still == Keep(pending, Unnamed(ds))
            && d.w.buf == d.w.st.messages == w.st.messages + ToolsOf(CallIds(Keep(pending, DeniedNow(ds))))
            && d.w.st.status == (if d.still == [] then Running else w.st.status)
            && d.w.acc == w.acc
            && d.w.st == w.st.(messages := d.w.st.messages, pending := d.still, status := d.w.st.status)
            && Distinct(d.routed)
            && forall p :: p in d.routed <==> exists a | a in pending :: a.path != [] && a.path[0] == p && Named(ds, a)
  {
    var pending := w.st.pending;
    SplitStill(w, pending, ds);
    SplitDenied(pending, ds);
    SplitGranted(w, pending, ds);
    SplitFrame(w, pending, ds);
    DecideMessages(w, pending, ds);
    forall p
      ensures p in DecideAll(w, pending, ds).routed <==>
              exists a | a in pending :: a.path != [] && a.path[0] == p && Named(ds, a)
    {
      RoutedExactly(w, pending, ds, p);
    }
  }

  /** Dispatching opens one journal step behind the last, without usage, that records the granted calls,
      and answers them in order. */
  lemma DispatchExactly(w: Work, granted: seq<CallId>)
    ensures DispatchResumed(w, granted) ==
            w.(buf := w.buf + ToolsOf(granted),
               st := w.st.(messages := w.st.messages + ToolsOf(granted),
                           steps := w.st.steps + [StepRec(MaxStep(w.st.steps) + 1, ZERO, granted)]))
  {
    var begun := BeginStep(w);
    AnswerAllExactly(begun, granted);
    assert [] + granted == granted;
    assert Recorded(begun.st.steps, granted) == w.st.steps + [StepRec(MaxStep(w.st.steps) + 1, ZERO, granted)];
  }

  /** The approvals not mirrored from the parked sub-run. */
  ghost function Elsewhere(park: CallId): Approval -> bool {
    (a: Approval) => a.path == [] || a.path[0] != park
  }

  lemma {:induction false} NotUnderKeeps(pending: seq<Approval>, park: CallId)
    ensures NotUnder(pending, park) == Keep(pending, Elsewhere(park))
  {
    if pending != [] {
      NotUnderKeeps(pending[..|pending| - 1], park);
    }
  }

  /** A sub-run that parks again has its stale approvals replaced by its current ones, one level deeper,
      and suspends the parent; nothing else changes. */
  lemma ReparkExactly(w: Work, park: CallId, first: Approval, rest: seq<Approval>)
    ensures SettleOne(w, park, Reparked(first, rest)) ==
            w.(st := w.st.(status := AwaitingApproval,
                           pending := Keep(w.st.pending, Elsewhere(park)) + Under(park, [first] + rest)))
  {
    NotUnderKeeps(w.st.pending, park);
    UnderIsMirror(park, [first] + rest);
  }

  lemma {:induction false} WithoutExactly(parks: seq<CallId>, park: CallId, k: nat)
    requires k < |parks| && parks[k] == park && forall i | 0 <= i < k :: parks[i] != park
    ensures Without(parks, park) == parks[..k] + parks[k + 1..]
  {
    if k > 0 {
      WithoutExactly(parks[1..], park, k - 1);
      assert parks == [parks[0]] + parks[1..];
    }
  }

  /** A sub-run that ends is answered, recorded and charged, and its first park entry removed; the
      parent's approvals and status stay. */
  lemma SettleExactly(w: Work, park: CallId, folds: seq<(string, Usage)>, k: nat)
    requires k < |w.st.parks| && w.st.parks[k] == park && forall i | 0 <= i < k :: w.st.parks[i] != park
    ensures var r := SettleOne(w, park, Settled(folds));
            && Answered(w, r, [park]) && r.st.byModel == Charges(w.st.byModel, folds)
            && r.st.pending == w.st.pending && r.st.status == w.st.status
            && r.st.parks == w.st.parks[..k] + w.st.parks[k + 1..]
  {
    WithoutExactly(w.st.parks, park, k);
    var f := FoldAll(w, folds);
    var g := f.(st := f.st.(parks := Without(f.st.parks, park)));
    FoldAllCharges(w, folds);
    AnswerAllExactly(g, [park]);
    assert [park][..0] == [];
    assert AnswerAll(g, [park]) == Answer(g, park);
  }

  lemma {:induction false} SettlingKeepsParks(w: Work, heads: seq<CallId>, children: map<CallId, Child>, q: CallId)
    requires q !in heads
    ensures q in SettleAll(w, heads, children).w.st.parks <==> q in w.st.parks
  {
    if heads != [] {
      SettlingKeepsParks(w, heads[..|heads| - 1], children, q);
    }
  }

  /** Routing throws exactly when some routed sub-run is not parked or has no target. */
  lemma {:induction false} TargetsExactly(w: Work, heads: seq<CallId>, children: map<CallId, Child>)
    requires Distinct(heads)
    ensures SettleAll(w, heads, children).AllSettled? <==>
            forall p | p in heads :: p in w.st.parks && p in children
  {
    if heads != [] {
      var n := |heads| - 1;
      TargetsExactly(w, heads[..n], children);
      SettlingKeepsParks(w, heads[..n], children, heads[n]);
      assert heads == heads[..n] + [heads[n]];
    }
  }

  /** Some routed sub-run is not parked or has no target. */
  predicate Missing(d: Directed, children: map<CallId, Child>) {
    exists p | p in d.routed :: p !in d.w.st.parks || p !in children
  }

  predicate Waits(st: RunState) {
    st.status.AwaitingApproval? || (st.status.Aborted? && st.pending != [])
  }

  lemma RoutedMissing(d: Directed, children: map<CallId, Child>)
    requires Distinct(d.routed)
    ensures Routed(d, children).TargetMissing? <==> Missing(d, children)
  {
    if d.routed != [] {
      var w := BeginStep(Dispatched(d));
      DispatchExactly(d.w, d.granted);
      assert w.st.parks == d.w.st.parks;
      TargetsExactly(w, d.routed, children);
    }
  }

  lemma AfterExactly(d: Directed, children: map<CallId, Child>)
    requires Distinct(d.routed)
    ensures var o := AfterDirective(d, children);
            if d.w.st.status.Failed? then o == Return(d.w)
            else (o.Threw? <==> Missing(d, children)) && (o.Return? <==> !o.Threw? && Waits(o.w.st))
  {
    RoutedMissing(d, children);
  }

  /** What a resume comes to, for every state, directive and sub-run: a run that is failed once the
      directive is applied returns at once; else a missing target throws, and a run that still waits
      returns; any other enters the loop. */
  lemma ResumeOutcomes(w: Work, directive: Option<seq<Decision>>, children: map<CallId, Child>)
    ensures var o := ResumeRun(w, directive, children);
            var d := if directive.Some? && w.st.pending != [] then ApplyDirective(w, directive.value)
                     else Directed(w, [], [], w.st.pending);
            if d.w.st.status.Failed? then o == Return(d.w)
            else (o.Threw? <==> Missing(d, children)) && (o.Return? <==> !o.Threw? && Waits(o.w.st))
  {
    if directive.Some? && w.st.pending != [] {
      SplitFrame(w, w.st.pending, directive.value);
      AfterExactly(ApplyDirective(w, directive.value), children);
    } else {
      AfterExactly(Directed(w, [], [], w.st.pending), children);
    }
  }
}
