/** What a step's walk does to every part of the run, read from the front of its calls: which approvals it
    asks for, which calls it answers and in which order, what it journals and what it charges. */
module WalkExact {
  import opened Transcript
  import opened RunStates
  import opened Approvals

  // ---------------------------------------------------------------- the reading

  /** A parked sub-run's approvals as the parent shows them: the child's ids, one level deeper. */
  function Under(park: CallId, child: seq<Approval>): seq<Approval> {
    seq(|child|, i requires 0 <= i < |child| => Approval(child[i].callId, [park] + child[i].path))
  }

  function AskedBy(id: CallId, d: Disposition): seq<Approval> {
    match d
    case Gated => [Approval(id, [])]
    case SubParked(first, rest) => Under(id, [first] + rest)
    case _ => []
  }

  /** One approval per gated call, and every approval of each parked sub-run, in call order. */
  function Asked(ids: seq<CallId>, ds: seq<Disposition>): seq<Approval>
    requires |ids| == |ds|
    decreases |ids|
  {
    if ids == [] then [] else AskedBy(ids[0], ds[0]) + Asked(ids[1..], ds[1..])
  }

  /** The parked calls behind the earlier ones, each once. */
  function ParkedAfter(parks: seq<CallId>, ids: seq<CallId>, ds: seq<Disposition>): seq<CallId>
    requires |ids| == |ds|
    decreases |ids|
  {
    if ids == [] then parks
    else
      ParkedAfter(if ds[0].SubParked? && ids[0] !in parks then parks + [ids[0]] else parks, ids[1..], ds[1..])
  }

  /** The calls that get a tool message, in order: calls that fail fast at once; a batch in front of the
      next gated or sub-agent call, or at the end. */
  function Order(batch: seq<CallId>, ids: seq<CallId>, ds: seq<Disposition>): seq<CallId>
    requires |ids| == |ds|
    decreases |ids|
  {
    if ids == [] then batch
    else
      match ds[0]
      case FailFast => [ids[0]] + Order(batch, ids[1..], ds[1..])
      case Batched(_) => Order(batch + [ids[0]], ids[1..], ds[1..])
      case SubSettled(_) => batch + [ids[0]] + Order([], ids[1..], ds[1..])
      case _ => batch + Order([], ids[1..], ds[1..])
  }

  /** What sub-agent runs charge, in call order. */
  function Folds(ids: seq<CallId>, ds: seq<Disposition>): seq<(string, Usage)>
    requires |ids| == |ds|
    decreases |ids|
  {
    if ids == [] then []
    else
      var more :=
        match ds[0]
        case Batched(folds) => folds
        case SubSettled(folds) => folds
        case _ => [];
      more + Folds(ids[1..], ds[1..])
  }

  predicate Suspends(d: Disposition) {
    d.Gated? || d.SubParked?
  }

  /** The last journal entry records the calls. */
  function Recorded(steps: seq<StepRec>, ids: seq<CallId>): seq<StepRec> {
    if steps == [] then []
    else
      var n := |steps| - 1;
      steps[n := StepRec(steps[n].number, steps[n].usage, steps[n].calls + ids)]
  }

  // ---------------------------------------------------------------- pieces

  lemma ToolsAppend(a: seq<CallId>, b: seq<CallId>)
    ensures ToolsOf(a + b) == ToolsOf(a) + ToolsOf(b)
  {
  }

  lemma RecordedAppend(steps: seq<StepRec>, a: seq<CallId>, b: seq<CallId>)
    ensures Recorded(Recorded(steps, a), b) == Recorded(steps, a + b)
  {
    if steps != [] {
      var n := |steps| - 1;
      assert steps[n].calls + a + b == steps[n].calls + (a + b);
    }
  }

  lemma RecordedNothing(steps: seq<StepRec>)
    ensures Recorded(steps, []) == steps
  {
    if steps != [] {
      var n := |steps| - 1;
      assert steps[n].calls + [] == steps[n].calls;
    }
  }

  /** Answering calls appends their tool messages to buffer and state, records them in the last journal
      entry, and changes nothing else. */
  lemma {:induction false} AnswerAllExactly(w: Work, ids: seq<CallId>)
    ensures AnswerAll(w, ids) ==
            w.(buf := w.buf + ToolsOf(ids),
               st := w.st.(messages := w.st.messages + ToolsOf(ids), steps := Recorded(w.st.steps, ids)))
  {
    if ids == [] {
      RecordedNothing(w.st.steps);
      assert w.buf + [] == w.buf && w.st.messages + [] == w.st.messages;
    } else {
      var n := |ids| - 1;
      AnswerAllExactly(w, ids[..n]);
      assert ids == ids[..n] + [ids[n]];
      ToolsAppend(ids[..n], [ids[n]]);
      RecordedAppend(w.st.steps, ids[..n], [ids[n]]);
      assert ToolsOf([ids[n]]) == [Tool(ids[n])];
    }
  }

  lemma UnderIsMirror(park: CallId, child: seq<Approval>)
    ensures Mirror(park, child) == Under(park, child)
  {
  }

  lemma {:induction false} WalkFront(k: Walk, ids: seq<CallId>, ds: seq<Disposition>)
    requires |ids| == |ds| > 0
    ensures WalkAll(k, ids, ds) == WalkAll(WalkOne(k, ids[0], ds[0]), ids[1..], ds[1..])
  {
    var n := |ids| - 1;
    if n == 0 {
      assert ids[..0] == [] && ds[..0] == [];
      assert ids[1..] == [] && ds[1..] == [];
    } else {
      WalkFront(k, ids[..n], ds[..n]);
      assert ids[..n][1..] == ids[1..][..n - 1] && ds[..n][1..] == ds[1..][..n - 1];
    }
  }

  /** The walk with its last batch dispatched. */
  function Fin(k: Walk, ids: seq<CallId>, ds: seq<Disposition>): Walk
    requires |ids| == |ds|
  {
    Flush(WalkAll(k, ids, ds))
  }

  lemma FinFront(k: Walk, ids: seq<CallId>, ds: seq<Disposition>)
    requires |ids| == |ds| > 0
    ensures Fin(k, ids, ds) == Fin(WalkOne(k, ids[0], ds[0]), ids[1..], ds[1..])
  {
    WalkFront(k, ids, ds);
  }

  lemma FlushExactly(k: Walk)
    ensures Flush(k) ==
            k.(batch := [],
               w := k.w.(buf := k.w.buf + ToolsOf(k.batch),
                         st := k.w.st.(messages := k.w.st.messages + ToolsOf(k.batch),
                                       steps := Recorded(k.w.st.steps, k.batch))))
  {
    AnswerAllExactly(k.w, k.batch);
  }

  // ---------------------------------------------------------------- approvals and parks

  lemma OneAsks(k: Walk, id: CallId, d: Disposition)
    ensures WalkOne(k, id, d).w.st.pending == k.w.st.pending + AskedBy(id, d)
    ensures WalkOne(k, id, d).w.st.parks ==
            if d.SubParked? && id !in k.w.st.parks then k.w.st.parks + [id] else k.w.st.parks
  {
    FlushExactly(k);
    if d.SubParked? {
      UnderIsMirror(id, [d.first] + d.rest);
    }
  }

  lemma Regroup<T>(a: seq<T>, b: seq<T>, c: seq<T>)
    ensures (a + b) + c == a + (b + c)
  {
  }

  lemma {:induction false} FinAsks(k: Walk, ids: seq<CallId>, ds: seq<Disposition>)
    requires |ids| == |ds|
    ensures Fin(k, ids, ds).w.st.pending == k.w.st.pending + Asked(ids, ds)
    ensures Fin(k, ids, ds).w.st.parks == ParkedAfter(k.w.st.parks, ids, ds)
    decreases |ids|
  {
    if ids == [] {
      FlushExactly(k);
    } else {
      var one := WalkOne(k, ids[0], ds[0]);
      FinFront(k, ids, ds);
      FinAsks(one, ids[1..], ds[1..]);
      OneAsks(k, ids[0], ds[0]);
      Regroup(k.w.st.pending, AskedBy(ids[0], ds[0]), Asked(ids[1..], ds[1..]));
    }
  }

  lemma {:induction false} FinCounts(k: Walk, ids: seq<CallId>, ds: seq<Disposition>)
    requires |ids| == |ds|
    ensures Fin(k, ids, ds).w.st.status == k.w.st.status && Fin(k, ids, ds).requested >= k.requested
    ensures Fin(k, ids, ds).requested == k.requested <==> forall d | d in ds :: !Suspends(d)
    decreases |ids|
  {
    FlushExactly(k);
    if ids != [] {
      var one := WalkOne(k, ids[0], ds[0]);
      FinFront(k, ids, ds);
      FinCounts(one, ids[1..], ds[1..]);
      assert one.requested == k.requested + if Suspends(ds[0]) then 1 else 0;
      assert ds[0] in ds && (forall d | d in ds :: d == ds[0] || d in ds[1..]) && (forall d | d in ds[1..] :: d in ds);
    }
  }

  // ---------------------------------------------------------------- messages and journal

  /** `r` is `w` with the calls answered and recorded. */
  predicate Answered(w: Work, r: Work, ids: seq<CallId>) {
    && r.buf == w.buf + ToolsOf(ids) && r.st.messages == w.st.messages + ToolsOf(ids)
    && r.st.steps == Recorded(w.st.steps, ids)
  }

  lemma AnsweredTrans(a: Work, b: Work, c: Work, x: seq<CallId>, y: seq<CallId>)
    requires Answered(a, b, x) && Answered(b, c, y)
    ensures Answered(a, c, x + y)
  {
    ToolsAppend(x, y);
    RecordedAppend(a.st.steps, x, y);
  }

  lemma OneAnswers(k: Walk, id: CallId, d: Disposition)
    ensures var now :=
              match d
              case FailFast => [id]
              case Batched(_) => []
              case SubSettled(_) => k.batch + [id]
              case _ => k.batch;
            Answered(k.w, WalkOne(k, id, d).w, now)
    ensures WalkOne(k, id, d).batch == match d
              case FailFast => k.batch
              case Batched(_) => k.batch + [id]
              case _ => []
  {
    FlushExactly(k);
    RecordedNothing(k.w.st.steps);
    AnswerAllExactly(k.w, [id]);
    assert [id][..0] == [];
    assert AnswerAll(k.w, [id]) == Answer(k.w, id);
    var f := Flush(k).w;
    if d.SubSettled? {
      var g := FoldAll(f, d.folds);
      AnswerAllExactly(g, [id]);
      assert AnswerAll(g, [id]) == Answer(g, id);
      AnsweredTrans(k.w, g, Answer(g, id), k.batch, [id]);
    }
  }

  lemma {:induction false} FinAnswers(k: Walk, ids: seq<CallId>, ds: seq<Disposition>)
    requires |ids| == |ds|
    ensures Answered(k.w, Fin(k, ids, ds).w, Order(k.batch, ids, ds))
    decreases |ids|
  {
    FlushExactly(k);
    if ids != [] {
      var one := WalkOne(k, ids[0], ds[0]);
      FinFront(k, ids, ds);
      FinAnswers(one, ids[1..], ds[1..]);
      OneAnswers(k, ids[0], ds[0]);
      var rest := Order(one.batch, ids[1..], ds[1..]);
      match ds[0] {
        case FailFast => AnsweredTrans(k.w, one.w, Fin(k, ids, ds).w, [ids[0]], rest);
        case Batched(_) =>
          AnsweredTrans(k.w, one.w, Fin(k, ids, ds).w, [], rest);
          assert [] + rest == rest;
        case SubSettled(_) => AnsweredTrans(k.w, one.w, Fin(k, ids, ds).w, k.batch + [ids[0]], rest);
        case _ => AnsweredTrans(k.w, one.w, Fin(k, ids, ds).w, k.batch, rest);
      }
    }
  }

  // ---------------------------------------------------------------- charges

  lemma {:induction false} ChargesSnoc(l: seq<(string, Usage)>, a: seq<(string, Usage)>, e: (string, Usage))
    ensures Charges(l, a + [e]) == AddModel(Charges(l, a), e.0, e.1)
    decreases |a|
  {
    if a == [] {
      assert [e][1..] == [];
    } else {
      assert (a + [e])[1..] == a[1..] + [e];
      ChargesSnoc(AddModel(l, a[0].0, a[0].1), a[1..], e);
    }
  }

  lemma {:induction false} ChargesConcat(l: seq<(string, Usage)>, a: seq<(string, Usage)>, b: seq<(string, Usage)>)
    ensures Charges(l, a + b) == Charges(Charges(l, a), b)
    decreases |a|
  {
    if a == [] {
      assert a + b == b;
    } else {
      assert (a + b)[1..] == a[1..] + b;
      ChargesConcat(AddModel(l, a[0].0, a[0].1), a[1..], b);
    }
  }

  lemma {:induction false} FoldAllCharges(w: Work, folds: seq<(string, Usage)>)
    ensures FoldAll(w, folds).st.byModel == Charges(w.st.byModel, folds)
  {
    if folds != [] {
      var n := |folds| - 1;
      FoldAllCharges(w, folds[..n]);
      ChargesSnoc(w.st.byModel, folds[..n], folds[n]);
      assert folds == folds[..n] + [folds[n]];
    }
  }

  /** The model ledger of `r` is that of `w` with the entries charged one by one. */
  lemma OneCharges(k: Walk, id: CallId, d: Disposition)
    ensures WalkOne(k, id, d).w.st.byModel ==
            Charges(k.w.st.byModel, if d.Batched? then d.folds else if d.SubSettled? then d.folds else [])
  {
    FlushExactly(k);
    if d.Batched? {
      FoldAllCharges(k.w, d.folds);
    } else if d.SubSettled? {
      FoldAllCharges(Flush(k).w, d.folds);
    }
  }

  lemma {:induction false} FinCharges(k: Walk, ids: seq<CallId>, ds: seq<Disposition>)
    requires |ids| == |ds|
    ensures Fin(k, ids, ds).w.st.byModel == Charges(k.w.st.byModel, Folds(ids, ds))
    decreases |ids|
  {
    FlushExactly(k);
    if ids != [] {
      var one := WalkOne(k, ids[0], ds[0]);
      FinFront(k, ids, ds);
      FinCharges(one, ids[1..], ds[1..]);
      OneCharges(k, ids[0], ds[0]);
      var now := if ds[0].Batched? then ds[0].folds else if ds[0].SubSettled? then ds[0].folds else [];
      ChargesConcat(k.w.st.byModel, now, Folds(ids[1..], ds[1..]));
    }
  }

  // ---------------------------------------------------------------- the walk

  /** For every step and every mix of outcomes: the approvals and parks the walk adds, the calls it answers
      and records, in order, what it charges, and that it suspends exactly when a call is gated or parks. */
  lemma WalkExactly(w: Work, ids: seq<CallId>, ds: seq<Disposition>)
    requires |ids| == |ds|
    ensures var r := WalkStep(w, ids, ds).w;
            && r.st.pending == w.st.pending + Asked(ids, ds) && r.st.parks == ParkedAfter(w.st.parks, ids, ds)
            && Answered(w, r, Order([], ids, ds))
            && r.st.byModel == Charges(w.st.byModel, Folds(ids, ds))
            && r.st.status == if exists d | d in ds :: Suspends(d) then AwaitingApproval else w.st.status
    ensures WalkStep(w, ids, ds).requested > 0 <==> exists d | d in ds :: Suspends(d)
  {
    var k := Walk(w, [], 0);
    FinAsks(k, ids, ds);
    FinCounts(k, ids, ds);
    FinAnswers(k, ids, ds);
    FinCharges(k, ids, ds);
  }

  /** The calls that are neither gated nor parked. */
  function Settling(ids: seq<CallId>, ds: seq<Disposition>): seq<CallId>
    requires |ids| == |ds|
    decreases |ids|
  {
    if ids == [] then []
    else (if Suspends(ds[0]) then [] else [ids[0]]) + Settling(ids[1..], ds[1..])
  }

  /** Each of them is answered exactly once, and no other. */
  lemma {:induction false} AnsweredOnce(batch: seq<CallId>, ids: seq<CallId>, ds: seq<Disposition>)
    requires |ids| == |ds|
    ensures multiset(Order(batch, ids, ds)) == multiset(batch) + multiset(Settling(ids, ds))
    decreases |ids|
  {
    if ids != [] {
      var next :=
        match ds[0]
        case FailFast => batch
        case Batched(_) => batch + [ids[0]]
        case _ => [];
      AnsweredOnce(next, ids[1..], ds[1..]);
    }
  }
}
