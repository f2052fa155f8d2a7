/** Journal numbering and usage accounting across suspends, resumes and sub-agent folds. */
module Ledgers {
  import opened Options
  import opened Transcript
  import opened RunStates
  import opened Approvals
  import opened Resume

  /** The journal keeps increasing and no step is renumbered. */
  ghost predicate KeepsJournal(s: seq<StepRec>, t: seq<StepRec>) {
    (Increasing(s) ==> Increasing(t)) && MaxStep(s) <= MaxStep(t) && |s| <= |t|
  }

  /** Each ledger still adds up if it did, and the run total and the run's accumulator grow by the same amount. */
  ghost predicate KeepsLedger(w: Work, r: Work) {
    (Covered(w.st) ==> Covered(r.st)) && (Modelled(w.st) ==> Modelled(r.st)) &&
    Add(r.acc, w.st.usage) == Add(w.acc, r.st.usage) &&
    w.st.usage.total <= r.st.usage.total
  }

  ghost predicate Booked(w: Work, r: Work) {
    KeepsJournal(w.st.steps, r.st.steps) && KeepsLedger(w, r)
  }

  /** As `Booked`, with no step added. */
  ghost predicate SameStep(w: Work, r: Work) {
    Booked(w, r) && |r.st.steps| == |w.st.steps| && MaxStep(r.st.steps) == MaxStep(w.st.steps)
  }

  lemma AnswerBooked(w: Work, id: CallId)
    ensures SameStep(w, Answer(w, id)) && Answer(w, id).acc == w.acc
  {
    RecordKeepsJournal(w.st, id);
  }

  lemma {:induction false} AnswerAllBooked(w: Work, ids: seq<CallId>)
    ensures SameStep(w, AnswerAll(w, ids)) && AnswerAll(w, ids).st.usage == w.st.usage
  {
    if ids != [] {
      AnswerAllBooked(w, ids[..|ids| - 1]);
      AnswerBooked(AnswerAll(w, ids[..|ids| - 1]), ids[|ids| - 1]);
    }
  }

  lemma FoldBooked(w: Work, folds: seq<(string, Usage)>)
    ensures SameStep(w, FoldAll(w, folds))
  {
    var sum := SumModels(folds);
    FoldAllSums(w, folds);
    AddSwap(SumSteps(w.st.steps), w.st.folded, sum);
    AddSwap(w.acc, sum, w.st.usage);
    AddSwap(w.acc, w.st.usage, sum);
  }

  lemma BookedTrans(a: Work, b: Work, c: Work)
    requires Booked(a, b) && Booked(b, c)
    ensures Booked(a, c)
    ensures SameStep(a, b) && SameStep(b, c) ==> SameStep(a, c)
  {
  }

  lemma WalkOneBooked(k: Walk, id: CallId, d: Disposition)
    ensures SameStep(k.w, WalkOne(k, id, d).w)
  {
    match d {
      case FailFast => AnswerBooked(k.w, id);
      case Batched(folds) => FoldBooked(k.w, folds);
      case Gated => AnswerAllBooked(k.w, k.batch);
      case SubSettled(folds) =>
        AnswerAllBooked(k.w, k.batch);
        var f := Flush(k).w;
        FoldBooked(f, folds);
        AnswerBooked(FoldAll(f, folds), id);
        BookedTrans(k.w, f, FoldAll(f, folds));
        BookedTrans(k.w, FoldAll(f, folds), Answer(FoldAll(f, folds), id));
      case SubParked(first, rest) => AnswerAllBooked(k.w, k.batch);
    }
  }

  lemma {:induction false} WalkAllBooked(k: Walk, ids: seq<CallId>, ds: seq<Disposition>)
    requires |ids| == |ds|
    ensures SameStep(k.w, WalkAll(k, ids, ds).w)
  {
    if ids != [] {
      var n := |ids| - 1;
      WalkAllBooked(k, ids[..n], ds[..n]);
      WalkOneBooked(WalkAll(k, ids[..n], ds[..n]), ids[n], ds[n]);
    }
  }

  lemma StatusBooked(w: Work, s: Status)
    ensures SameStep(w, w.(st := w.st.(status := s)))
  {
  }

  /** The tool-call walk stays inside its step and books sub-agent usage everywhere. */
  lemma WalkBooked(w: Work, ids: seq<CallId>, ds: seq<Disposition>)
    requires |ids| == |ds|
    ensures SameStep(w, WalkStep(w, ids, ds).w)
  {
    var k := WalkAll(Walk(w, [], 0), ids, ds);
    var f := AnswerAll(k.w, k.batch);
    assert SameStep(w, f) by {
      WalkAllBooked(Walk(w, [], 0), ids, ds);
      AnswerAllBooked(k.w, k.batch);
      BookedTrans(w, k.w, f);
    }
    var r := WalkStep(w, ids, ds).w;
    assert r == f || r == f.(st := f.st.(status := AwaitingApproval));
    StatusBooked(f, AwaitingApproval);
    BookedTrans(w, f, f.(st := f.st.(status := AwaitingApproval)));
  }

  lemma {:induction false} DenyAllBooked(w: Work, denied: seq<Approval>)
    ensures DenyAll(w, denied).st.steps == w.st.steps && SameStep(w, DenyAll(w, denied))
    ensures DenyAll(w, denied).st.usage == w.st.usage
  {
    if denied != [] {
      DenyAllBooked(w, denied[..|denied| - 1]);
    }
  }

  lemma CancelBooked(w: Work, policy: Policy)
    ensures SameStep(w, Cancel(w, policy)) && Cancel(w, policy).st.usage == w.st.usage
    ensures Cancel(w, policy).st.steps == w.st.steps
  {
    DenyAllBooked(w, w.st.pending);
  }

  lemma {:induction false} DecideAllBooked(w: Work, pending: seq<Approval>, ds: seq<Decision>)
    ensures SameStep(w, DecideAll(w, pending, ds).w)
  {
    if pending != [] {
      DecideAllBooked(w, pending[..|pending| - 1], ds);
    }
  }

  lemma OpenKeepsLedger(w: Work, w': Work)
    requires SumSteps(w'.st.steps) == SumSteps(w.st.steps) && w'.acc == w.acc
    requires w'.st.usage == w.st.usage && w'.st.byModel == w.st.byModel && w'.st.folded == w.st.folded
    ensures KeepsLedger(w, w')
  {
  }

  lemma OpenBooked(w: Work)
    ensures Booked(w, BeginStep(w))
  {
    OpenStepKeepsJournal(w.st, ZERO);
    AddZero(SumSteps(w.st.steps));
    OpenKeepsLedger(w, BeginStep(w));
  }

  lemma PlainBooked(w: Work, st: RunState)
    requires st.steps == w.st.steps && st.usage == w.st.usage && st.byModel == w.st.byModel && st.folded == w.st.folded
    ensures Booked(w, w.(st := st))
  {
  }

  lemma SettleOneBooked(w: Work, park: CallId, child: Child)
    ensures Booked(w, SettleOne(w, park, child))
  {
    if child.Settled? {
      var f := FoldAll(w, child.folds);
      var g := f.(st := f.st.(parks := Without(f.st.parks, park)));
      FoldBooked(w, child.folds);
      PlainBooked(f, g.st);
      AnswerBooked(g, park);
      BookedTrans(w, f, g);
      BookedTrans(w, g, Answer(g, park));
    } else {
      PlainBooked(w, SettleOne(w, park, child).st);
    }
  }

  lemma BookedSelf(w: Work)
    ensures Booked(w, w)
  {
  }

  lemma {:induction false} SettleAllBooked(w: Work, heads: seq<CallId>, children: map<CallId, Child>)
    ensures Booked(w, SettleAll(w, heads, children).w)
  {
    if heads == [] {
      BookedSelf(w);
    } else {
      var n := |heads| - 1;
      SettleAllBooked(w, heads[..n], children);
      var f := SettleAll(w, heads[..n], children).w;
      var r := SettleAll(w, heads, children);
      if r.AllSettled? {
        assert r.w == SettleOne(f, heads[n], children[heads[n]]);
        SettleOneBooked(f, heads[n], children[heads[n]]);
        BookedTrans(w, f, r.w);
      } else {
        assert r.w == f;
      }
    }
  }

  lemma DispatchBooked(w: Work, granted: seq<CallId>)
    ensures Booked(w, DispatchResumed(w, granted))
  {
    var begun := BeginStep(w);
    var r := AnswerAll(begun, granted);
    assert Booked(w, begun) by { OpenBooked(w); }
    assert Booked(begun, r) by { AnswerAllBooked(begun, granted); }
    BookedTrans(w, begun, r);
  }

  lemma SubRunsBooked(w: Work, heads: seq<CallId>, children: map<CallId, Child>)
    ensures Booked(w, ResumeSubRuns(w, heads, children).w)
  {
    OpenBooked(w);
    SettleAllBooked(BeginStep(w), heads, children);
    BookedTrans(w, BeginStep(w), ResumeSubRuns(w, heads, children).w);
  }

  lemma AfterDirectiveBooked(d: Directed, children: map<CallId, Child>)
    ensures Booked(d.w, AfterDirective(d, children).w)
  {
    var r := AfterDirective(d, children);
    if d.w.st.status.Failed? {
      assert r.w == d.w;
      BookedSelf(d.w);
    } else {
      var w1 := Dispatched(d);
      assert Booked(d.w, w1) by {
        BookedSelf(d.w);
        DispatchBooked(d.w, d.granted);
      }
      if d.routed == [] {
        assert r.w == w1;
      } else {
        assert r.w == ResumeSubRuns(w1, d.routed, children).w;
        SubRunsBooked(w1, d.routed, children);
        BookedTrans(d.w, w1, r.w);
      }
    }
  }

  /** Resuming books everything it does, also when it throws: decisions, granted calls, sub-run folds. */
  lemma ResumeBooked(w: Work, directive: Option<seq<Decision>>, children: map<CallId, Child>)
    ensures Booked(w, ResumeRun(w, directive, children).w)
  {
    if directive.Some? && w.st.pending != [] {
      DecideAllBooked(w, w.st.pending, directive.value);
      var d := ApplyDirective(w, directive.value);
      AfterDirectiveBooked(d, children);
      BookedTrans(w, d.w, AfterDirective(d, children).w);
    } else {
      AfterDirectiveBooked(Directed(w, [], [], w.st.pending), children);
    }
  }
}
