/** Durable approvals: the tool-call walk that suspends a run, the abort policies, and the resume
    path that applies decisions, dispatches granted calls and routes decisions into parked
    sub-agent runs. */
module Approvals {
  import opened Transcript
  import opened RunStates

  // ---------------------------------------------------------------- what a returned run owes

  function Own(pending: seq<Approval>): set<CallId> {
    set a | a in pending && a.path == [] :: a.callId
  }

  /** The run's own call, or the parent call of the parked sub-run the approval is mirrored from. */
  function Head(a: Approval): CallId {
    if a.path == [] then a.callId else a.path[0]
  }

  /** The calls of the run that the pending approvals leave unanswered. */
  ghost function Heads(pending: seq<Approval>): set<CallId> {
    set a | a in pending :: Head(a)
  }

  function CallIds(pending: seq<Approval>): seq<CallId> {
    seq(|pending|, i requires 0 <= i < |pending| => pending[i].callId)
  }

  ghost predicate HasMirror(pending: seq<Approval>, park: CallId) {
    exists a | a in pending :: a.path != [] && a.path[0] == park
  }

  /** Every parked sub-run is represented by at least one mirrored approval. */
  ghost predicate Mirrored(pending: seq<Approval>, parks: seq<CallId>) {
    forall p | p in parks :: HasMirror(pending, p)
  }

  /** The transcript is grouped except for calls `owed` in its last group. */
  ghost predicate Owes(ms: seq<Message>, owed: set<CallId>) {
    var s := ScanAll(ms);
    s.Group? && s.open <= owed <= s.group
  }

  /** The calls of the last group still unanswered. */
  function OpenIds(ms: seq<Message>): set<CallId> {
    var s := ScanAll(ms);
    if s.Group? then s.open else {}
  }

  /** What the resume path takes for a call that already ran: journaled, and answered in the buffer. */
  predicate Replayable(st: RunState, id: CallId) {
    id in Journaled(st.steps) && Tool(id) in st.messages
  }

  /** No unanswered call that waits for an approval looks as if it had run. */
  ghost predicate Dispatchable(st: RunState) {
    forall id | id in Own(st.pending) && id in OpenIds(st.messages) :: !Replayable(st, id)
  }

  /** Owed calls, mirrors and status fit together. */
  ghost predicate Owing(st: RunState) {
    Owes(st.messages, Own(st.pending) + ToSet(st.parks)) &&
    Mirrored(st.pending, st.parks) && Distinct(st.parks) &&
    (st.pending != [] ==> st.status.AwaitingApproval? || st.status.Aborted?) &&
    (st.status.AwaitingApproval? ==> st.pending != [])
  }

  /** What every run that did not fail leaves behind. */
  ghost predicate Resumable(st: RunState) {
    Owing(st) && Dispatchable(st)
  }

  /** Nothing is owed: the state may be shown to a provider. */
  ghost predicate Presentable(st: RunState) {
    Grouped(st.messages) && st.pending == [] && st.parks == []
  }

  lemma AnswerOwed(ms: seq<Message>, owed: set<CallId>, id: CallId)
    requires Owes(ms, owed) && id in ScanAll(ms).group
    ensures Owes(ms + [Tool(id)], owed)
    ensures ScanAll(ms + [Tool(id)]) == Group(ScanAll(ms).open - {id}, ScanAll(ms).group)
    ensures Owes(ms + [Tool(id)], owed - {id})
  {
    ScanAppend(ms, Tool(id));
  }

  // ---------------------------------------------------------------- the tool-call walk

  /** How one call of a step is settled by the walk. A call the executor runs may itself run a sub-agent,
      whose usage is folded in; every later charge of the walk comes after the batch is dispatched. */
  datatype Disposition =
    | FailFast                                          // denied or invalid: answered at once
    | Batched(folds: seq<(string, Usage)>)              // queued for the executor
    | Gated                                             // needs an approval
    | SubSettled(folds: seq<(string, Usage)>)           // sub-agent run finished
    | SubParked(first: Approval, rest: seq<Approval>)   // sub-agent run waits for approvals

  datatype Walk = Walk(w: Work, batch: seq<CallId>, requested: nat)

  function Answer(w: Work, id: CallId): Work {
    Say(w.(st := Record(w.st, id)), Tool(id))
  }

  function AnswerAll(w: Work, ids: seq<CallId>): Work {
    if ids == [] then w else Answer(AnswerAll(w, ids[..|ids| - 1]), ids[|ids| - 1])
  }

  function Flush(k: Walk): Walk {
    k.(w := AnswerAll(k.w, k.batch), batch := [])
  }

  function Mirror(park: CallId, child: seq<Approval>): (r: seq<Approval>)
    ensures |r| == |child|
    ensures forall i | 0 <= i < |child| :: r[i] == Approval(child[i].callId, [park] + child[i].path)
    ensures forall a | a in r :: a.path != [] && a.path[0] == park
  {
    if child == [] then []
    else Mirror(park, child[..|child| - 1]) + [child[|child| - 1].(path := [park] + child[|child| - 1].path)]
  }

  function WalkOne(k: Walk, id: CallId, d: Disposition): Walk {
    match d
    case FailFast => k.(w := Answer(k.w, id))
    case Batched(folds) => k.(w := FoldAll(k.w, folds), batch := k.batch + [id])
    case Gated =>
      var f := Flush(k);
      f.(w := f.w.(st := f.w.st.(pending := f.w.st.pending + [Approval(id, [])])), requested := f.requested + 1)
    case SubSettled(folds) =>
      var f := Flush(k);
      f.(w := Answer(FoldAll(f.w, folds), id))
    case SubParked(first, rest) =>
      var f := Flush(k);
      var st := f.w.st;
      f.(w := f.w.(st := st.(parks := AddId(st.parks, id), pending := st.pending + Mirror(id, [first] + rest))),
         requested := f.requested + 1)
  }

  function WalkAll(k: Walk, ids: seq<CallId>, ds: seq<Disposition>): Walk
    requires |ids| == |ds|
  {
    if ids == [] then k
    else
      var n := |ids| - 1;
      WalkOne(WalkAll(k, ids[..n], ds[..n]), ids[n], ds[n])
  }

  function WalkStep(w: Work, ids: seq<CallId>, ds: seq<Disposition>): (r: Walk)
    requires |ids| == |ds|
  {
    var k := Flush(WalkAll(Walk(w, [], 0), ids, ds));
    if k.requested > 0 then k.(w := k.w.(st := k.w.st.(status := AwaitingApproval))) else k
  }

  lemma WalkOneMore(k: Walk, ids: seq<CallId>, ds: seq<Disposition>, n: nat)
    requires n < |ids| == |ds|
    ensures WalkAll(k, ids[..n + 1], ds[..n + 1]) == WalkOne(WalkAll(k, ids[..n], ds[..n]), ids[n], ds[n])
  {
    assert ids[..n + 1][..n] == ids[..n] && ds[..n + 1][..n] == ds[..n];
  }

  method ProcessStepToolCalls(w: Work, ids: seq<CallId>, ds: seq<Disposition>) returns (r: Work, suspended: bool)
    requires |ids| == |ds|
    ensures r == WalkStep(w, ids, ds).w && suspended == (WalkStep(w, ids, ds).requested > 0)
  {
    var k := Walk(w, [], 0);
    for n := 0 to |ids|
      invariant k == WalkAll(Walk(w, [], 0), ids[..n], ds[..n])
    {
      WalkOneMore(Walk(w, [], 0), ids, ds, n);
      match ds[n] {
        case FailFast =>
          k := k.(w := Answer(k.w, ids[n]));
        case Batched(folds) =>
          k := k.(w := FoldAll(k.w, folds), batch := k.batch + [ids[n]]);
        case Gated =>
          k := Flush(k);
          k := k.(w := k.w.(st := k.w.st.(pending := k.w.st.pending + [Approval(ids[n], [])])),
                  requested := k.requested + 1);
        case SubSettled(folds) =>
          k := Flush(k);
          k := k.(w := Answer(FoldAll(k.w, folds), ids[n]));
        case SubParked(first, rest) =>
          k := Flush(k);
          k := k.(w := k.w.(st := k.w.st.(
            parks := AddId(k.w.st.parks, ids[n]), pending := k.w.st.pending + Mirror(ids[n], [first] + rest))),
                  requested := k.requested + 1);
      }
    }
    assert ids[..|ids|] == ids && ds[..|ds|] == ds;
    k := Flush(k);
    suspended := k.requested > 0;
    r := if suspended then k.w.(st := k.w.st.(status := AwaitingApproval)) else k.w;
  }

  /** Buffer and state stay mirrored, and the walk leaves nothing unanswered but what it suspends on. */
  ghost predicate Walking(k: Walk, todo: set<CallId>, group: set<CallId>) {
    var st := k.w.st;
    k.w.buf == st.messages &&
    ScanAll(st.messages).Group? && ScanAll(st.messages).group == group &&
    Owes(st.messages, Own(st.pending) + ToSet(st.parks) + todo + ToSet(k.batch)) &&
    Mirrored(st.pending, st.parks) && Distinct(st.parks) &&
    (k.requested > 0 <==> st.pending != [])
  }

  lemma AnswerFacts(w: Work, id: CallId, owed: set<CallId>)
    requires w.buf == w.st.messages && Owes(w.st.messages, owed) && id in ScanAll(w.st.messages).group
    ensures var r := Answer(w, id);
            r.buf == r.st.messages && Owes(r.st.messages, owed - {id}) &&
            ScanAll(r.st.messages).group == ScanAll(w.st.messages).group &&
            r.st.pending == w.st.pending && r.st.parks == w.st.parks && r.st.status == w.st.status
  {
    AnswerOwed(w.st.messages, owed, id);
  }

  lemma {:induction false} AnswerAllFacts(w: Work, ids: seq<CallId>, owed: set<CallId>)
    requires w.buf == w.st.messages && Owes(w.st.messages, owed) && ToSet(ids) <= ScanAll(w.st.messages).group
    ensures var r := AnswerAll(w, ids);
            r.buf == r.st.messages && Owes(r.st.messages, owed - ToSet(ids)) &&
            ScanAll(r.st.messages).group == ScanAll(w.st.messages).group &&
            r.st.pending == w.st.pending && r.st.parks == w.st.parks && r.st.status == w.st.status
  {
    if ids == [] {
      assert owed - ToSet(ids) == owed;
    } else {
      var n := |ids| - 1;
      assert ids == ids[..n] + [ids[n]];
      assert ToSet(ids) == ToSet(ids[..n]) + {ids[n]};
      AnswerAllFacts(w, ids[..n], owed);
      AnswerFacts(AnswerAll(w, ids[..n]), ids[n], owed - ToSet(ids[..n]));
      assert owed - ToSet(ids[..n]) - {ids[n]} == owed - ToSet(ids);
    }
  }

  lemma OwesWiden(ms: seq<Message>, owed: set<CallId>, more: set<CallId>)
    requires Owes(ms, owed) && owed <= more && more <= ScanAll(ms).group
    ensures Owes(ms, more)
  {
  }

  lemma FlushFacts(k: Walk, todo: set<CallId>, group: set<CallId>)
    requires Walking(k, todo, group)
    ensures Walking(Flush(k), todo, group)
  {
    var st := k.w.st;
    var owed := Own(st.pending) + ToSet(st.parks) + todo + ToSet(k.batch);
    AnswerAllFacts(k.w, k.batch, owed);
    var st' := Flush(k).w.st;
    OwesWiden(st'.messages, owed - ToSet(k.batch), Own(st.pending) + ToSet(st.parks) + todo + ToSet([]));
  }

  lemma OwnAppend(pending: seq<Approval>, more: seq<Approval>)
    ensures Own(pending + more) == Own(pending) + Own(more)
  {
  }

  lemma MirrorAppend(pending: seq<Approval>, more: seq<Approval>, parks: seq<CallId>)
    requires Mirrored(pending, parks)
    ensures Mirrored(pending + more, parks)
  {
    forall p | p in parks
      ensures HasMirror(pending + more, p)
    {
      assert HasMirror(pending, p);
      var a :| a in pending && a.path != [] && a.path[0] == p;
      assert a in pending + more;
    }
  }

  lemma AnsweredFacts(k: Walk, id: CallId, todo: set<CallId>, group: set<CallId>)
    requires Walking(k, todo + {id}, group) && id in group
    ensures Walking(k.(w := Answer(k.w, id)), todo, group)
  {
    var st := k.w.st;
    var owed := Own(st.pending) + ToSet(st.parks) + (todo + {id}) + ToSet(k.batch);
    AnswerFacts(k.w, id, owed);
    OwesWiden(Answer(k.w, id).st.messages, owed - {id}, Own(st.pending) + ToSet(st.parks) + todo + ToSet(k.batch));
  }

  lemma BatchedFacts(k: Walk, id: CallId, todo: set<CallId>, group: set<CallId>)
    requires Walking(k, todo + {id}, group) && id in group
    ensures Walking(k.(batch := k.batch + [id]), todo, group)
  {
    var st := k.w.st;
    assert ToSet(k.batch + [id]) == ToSet(k.batch) + {id};
    assert Own(st.pending) + ToSet(st.parks) + (todo + {id}) + ToSet(k.batch)
        == Own(st.pending) + ToSet(st.parks) + todo + ToSet(k.batch + [id]);
  }

  /** Moving a call from the work list to the approvals or the parks changes who owes it, not what is owed. */
  lemma PendingFacts(
      k: Walk, id: CallId, pending: seq<Approval>, parks: seq<CallId>, todo: set<CallId>, group: set<CallId>)
    requires Walking(k, todo + {id}, group) && id in group && pending != []
    requires Own(pending) + ToSet(parks) == Own(k.w.st.pending) + ToSet(k.w.st.parks) + {id}
    requires Mirrored(pending, parks) && Distinct(parks)
    ensures Walking(k.(w := k.w.(st := k.w.st.(pending := pending, parks := parks)), requested := k.requested + 1),
                    todo, group)
  {
    assert Own(k.w.st.pending) + ToSet(k.w.st.parks) + (todo + {id}) + ToSet(k.batch)
        == Own(pending) + ToSet(parks) + todo + ToSet(k.batch);
  }

  lemma GatedFacts(k: Walk, id: CallId, todo: set<CallId>, group: set<CallId>)
    requires Walking(k, todo + {id}, group) && id in group
    ensures Walking(WalkOne(k, id, Gated), todo, group)
  {
    FlushFacts(k, todo + {id}, group);
    var f := Flush(k).w.st;
    var more := [Approval(id, [])];
    OwnAppend(f.pending, more);
    MirrorAppend(f.pending, more, f.parks);
    assert Own(more) == {id} by { assert more[0] in more; }
    PendingFacts(Flush(k), id, f.pending + more, f.parks, todo, group);
  }

  lemma ParkedFacts(k: Walk, id: CallId, first: Approval, rest: seq<Approval>, todo: set<CallId>, group: set<CallId>)
    requires Walking(k, todo + {id}, group) && id in group
    ensures Walking(WalkOne(k, id, SubParked(first, rest)), todo, group)
  {
    FlushFacts(k, todo + {id}, group);
    var f := Flush(k).w.st;
    var more := Mirror(id, [first] + rest);
    var parks := AddId(f.parks, id);
    OwnAppend(f.pending, more);
    MirrorAppend(f.pending, more, f.parks);
    assert Own(more) == {};
    assert more[0] in f.pending + more && HasMirror(f.pending + more, id);
    assert ToSet(parks) == ToSet(f.parks) + {id};
    PendingFacts(Flush(k), id, f.pending + more, parks, todo, group);
  }

  lemma WalkOneFacts(k: Walk, id: CallId, d: Disposition, todo: set<CallId>, group: set<CallId>)
    requires Walking(k, todo + {id}, group) && id in group
    ensures Walking(WalkOne(k, id, d), todo, group)
  {
    match d {
      case FailFast => AnsweredFacts(k, id, todo, group);
      case Batched(folds) => BatchedFacts(k.(w := FoldAll(k.w, folds)), id, todo, group);
      case Gated => GatedFacts(k, id, todo, group);
      case SubSettled(folds) =>
        FlushFacts(k, todo + {id}, group);
        var f := Flush(k);
        AnsweredFacts(f.(w := FoldAll(f.w, folds)), id, todo, group);
      case SubParked(first, rest) => ParkedFacts(k, id, first, rest, todo, group);
    }
  }

  lemma {:induction false} WalkAllFacts(
      k: Walk, ids: seq<CallId>, ds: seq<Disposition>, todo: set<CallId>, group: set<CallId>)
    requires |ids| == |ds| && ToSet(ids) <= group && Walking(k, todo + ToSet(ids), group)
    ensures Walking(WalkAll(k, ids, ds), todo, group)
  {
    if ids == [] {
      assert todo + ToSet(ids) == todo;
    } else {
      var n := |ids| - 1;
      assert ids == ids[..n] + [ids[n]];
      assert todo + ToSet(ids) == (todo + {ids[n]}) + ToSet(ids[..n]);
      WalkAllFacts(k, ids[..n], ds[..n], todo + {ids[n]}, group);
      WalkOneFacts(WalkAll(k, ids[..n], ds[..n]), ids[n], ds[n], todo, group);
    }
  }

  lemma NothingPendingNothingParked(pending: seq<Approval>, parks: seq<CallId>)
    requires Mirrored(pending, parks)
    ensures pending == [] ==> parks == []
  {
    if parks != [] {
      assert HasMirror(pending, parks[0]);
    }
  }

  /** An assistant message announcing `ids` was just committed to a presentable transcript. */
  ghost predicate Committed(st: RunState, ids: seq<CallId>) {
    ScanAll(st.messages) == Group(ToSet(ids), ToSet(ids)) && st.pending == [] && st.parks == []
  }

  lemma CommitFacts(w: Work, text: string, ids: seq<CallId>)
    requires Presentable(w.st)
    ensures Committed(Say(w, Assistant(text, ids)).st, ids)
  {
    ScanAppend(w.st.messages, Assistant(text, ids));
  }

  // ---------------------------------------------------------------- calls that look as if they ran

  /** Between two states no call became open, and none that stayed open began to look as if it ran. */
  ghost predicate Steady(st: RunState, st': RunState) {
    forall id | id in OpenIds(st'.messages) ::
      id in OpenIds(st.messages) && (Replayable(st', id) ==> Replayable(st, id))
  }

  lemma SteadyTrans(a: RunState, b: RunState, c: RunState)
    requires Steady(a, b) && Steady(b, c)
    ensures Steady(a, c)
  {
  }

  lemma SteadySame(a: RunState, b: RunState)
    requires a.messages == b.messages && Journaled(b.steps) == Journaled(a.steps)
    ensures Steady(a, b)
  {
  }

  lemma RecordJournals(st: RunState, id: CallId)
    ensures Journaled(Record(st, id).steps) <= Journaled(st.steps) + {id}
  {
    if st.steps != [] {
      var n := |st.steps| - 1;
      var steps := Record(st, id).steps;
      forall x | x in Journaled(steps)
        ensures x in Journaled(st.steps) + {id}
      {
        var k, j :| 0 <= k < |steps| && 0 <= j < |steps[k].calls| && steps[k].calls[j] == x;
        if k < n {
          assert st.steps[k] in st.steps && x in st.steps[k].calls;
        } else {
          assert st.steps[n] in st.steps;
        }
      }
    }
  }

  lemma SaySteady(w: Work, id: CallId)
    ensures Steady(w.st, Say(w, Tool(id)).st)
  {
    ScanAppend(w.st.messages, Tool(id));
  }

  lemma AnswerSteady(w: Work, id: CallId)
    ensures Steady(w.st, Answer(w, id).st)
  {
    ScanAppend(w.st.messages, Tool(id));
    RecordJournals(w.st, id);
  }

  lemma {:induction false} AnswerAllSteady(w: Work, ids: seq<CallId>)
    ensures Steady(w.st, AnswerAll(w, ids).st)
  {
    if ids != [] {
      var f := AnswerAll(w, ids[..|ids| - 1]);
      AnswerAllSteady(w, ids[..|ids| - 1]);
      AnswerSteady(f, ids[|ids| - 1]);
      SteadyTrans(w.st, f.st, AnswerAll(w, ids).st);
    }
  }

  lemma WalkOneSteady(k: Walk, id: CallId, d: Disposition)
    ensures Steady(k.w.st, WalkOne(k, id, d).w.st)
  {
    match d {
      case FailFast => AnswerSteady(k.w, id);
      case Batched(folds) => SteadySame(k.w.st, FoldAll(k.w, folds).st);
      case Gated =>
        AnswerAllSteady(k.w, k.batch);
        SteadySame(Flush(k).w.st, WalkOne(k, id, d).w.st);
        SteadyTrans(k.w.st, Flush(k).w.st, WalkOne(k, id, d).w.st);
      case SubSettled(folds) =>
        var f := FoldAll(Flush(k).w, folds);
        AnswerAllSteady(k.w, k.batch);
        SteadySame(Flush(k).w.st, f.st);
        SteadyTrans(k.w.st, Flush(k).w.st, f.st);
        AnswerSteady(f, id);
        SteadyTrans(k.w.st, f.st, WalkOne(k, id, d).w.st);
      case SubParked(_, _) =>
        AnswerAllSteady(k.w, k.batch);
        SteadySame(Flush(k).w.st, WalkOne(k, id, d).w.st);
        SteadyTrans(k.w.st, Flush(k).w.st, WalkOne(k, id, d).w.st);
    }
  }

  lemma {:induction false} WalkAllSteady(k: Walk, ids: seq<CallId>, ds: seq<Disposition>)
    requires |ids| == |ds|
    ensures Steady(k.w.st, WalkAll(k, ids, ds).w.st)
  {
    if ids != [] {
      var n := |ids| - 1;
      var f := WalkAll(k, ids[..n], ds[..n]);
      WalkAllSteady(k, ids[..n], ds[..n]);
      WalkOneSteady(f, ids[n], ds[n]);
      SteadyTrans(k.w.st, f.w.st, WalkAll(k, ids, ds).w.st);
    }
  }

  lemma WalkSteady(w: Work, ids: seq<CallId>, ds: seq<Disposition>)
    requires |ids| == |ds|
    ensures Steady(w.st, WalkStep(w, ids, ds).w.st)
  {
    var k := WalkAll(Walk(w, [], 0), ids, ds);
    WalkAllSteady(Walk(w, [], 0), ids, ds);
    AnswerAllSteady(k.w, k.batch);
    SteadyTrans(w.st, k.w.st, Flush(k).w.st);
    SteadySame(Flush(k).w.st, WalkStep(w, ids, ds).w.st);
    SteadyTrans(w.st, Flush(k).w.st, WalkStep(w, ids, ds).w.st);
  }

  ghost function GatedIds(ids: seq<CallId>, ds: seq<Disposition>): set<CallId>
    requires |ids| == |ds|
  {
    set i | 0 <= i < |ids| && ds[i].Gated? :: ids[i]
  }

  lemma {:induction false} AnswerAllPending(w: Work, ids: seq<CallId>)
    ensures AnswerAll(w, ids).st.pending == w.st.pending
  {
    if ids != [] {
      AnswerAllPending(w, ids[..|ids| - 1]);
    }
  }

  lemma WalkOnePending(k: Walk, id: CallId, d: Disposition)
    ensures Own(WalkOne(k, id, d).w.st.pending) <= Own(k.w.st.pending) + (if d.Gated? then {id} else {})
  {
    AnswerAllPending(k.w, k.batch);
    match d {
      case Gated => OwnAppend(k.w.st.pending, [Approval(id, [])]);
      case SubParked(first, rest) => OwnAppend(k.w.st.pending, Mirror(id, [first] + rest));
      case _ =>
    }
  }

  /** Only gated calls come to wait for an approval of the run's own. */
  lemma {:induction false} WalkAllPending(k: Walk, ids: seq<CallId>, ds: seq<Disposition>)
    requires |ids| == |ds|
    ensures Own(WalkAll(k, ids, ds).w.st.pending) <= Own(k.w.st.pending) + GatedIds(ids, ds)
  {
    if ids != [] {
      var n := |ids| - 1;
      WalkAllPending(k, ids[..n], ds[..n]);
      WalkOnePending(WalkAll(k, ids[..n], ds[..n]), ids[n], ds[n]);
      assert GatedIds(ids[..n], ds[..n]) <= GatedIds(ids, ds);
      assert ds[n].Gated? ==> ids[n] in GatedIds(ids, ds);
    }
  }

  lemma WalkDispatchable(w: Work, ids: seq<CallId>, ds: seq<Disposition>)
    requires |ids| == |ds| && w.st.pending == []
    requires forall id | id in GatedIds(ids, ds) :: !Replayable(w.st, id)
    ensures Dispatchable(WalkStep(w, ids, ds).w.st)
  {
    var k := WalkAll(Walk(w, [], 0), ids, ds);
    WalkSteady(w, ids, ds);
    WalkAllPending(Walk(w, [], 0), ids, ds);
    AnswerAllPending(k.w, k.batch);
    assert Own([]) == {};
  }

  // ---------------------------------------------------------------- what the walk leaves

  lemma WalkOwing(w: Work, ids: seq<CallId>, ds: seq<Disposition>)
    requires |ids| == |ds| && w.buf == w.st.messages && Committed(w.st, ids)
    ensures var r := WalkStep(w, ids, ds);
            r.w.buf == r.w.st.messages &&
            (r.requested > 0 ==> r.w.st.status.AwaitingApproval? && Owing(r.w.st)) &&
            (r.requested == 0 ==> Presentable(r.w.st))
  {
    var k := Walk(w, [], 0);
    assert Own(w.st.pending) + ToSet(w.st.parks) + ({} + ToSet(ids)) + ToSet([]) == ToSet(ids);
    WalkAllFacts(k, ids, ds, {}, ToSet(ids));
    var k1 := WalkAll(k, ids, ds);
    FlushFacts(k1, {}, ToSet(ids));
    var st := Flush(k1).w.st;
    assert Own(st.pending) + ToSet(st.parks) + {} + ToSet([]) == Own(st.pending) + ToSet(st.parks);
    NothingPendingNothingParked(st.pending, st.parks);
    if k1.requested == 0 {
      assert Own(st.pending) + ToSet(st.parks) == {};
    }
  }

  /** The walk leaves a resumable state when it suspends, provided no gated call looks as if it had
      run before, and a presentable one when it does not suspend. */
  lemma WalkOutcome(w: Work, ids: seq<CallId>, ds: seq<Disposition>)
    requires |ids| == |ds| && w.buf == w.st.messages && Committed(w.st, ids)
    requires forall id | id in GatedIds(ids, ds) :: !Replayable(w.st, id)
    ensures var r := WalkStep(w, ids, ds);
            r.w.buf == r.w.st.messages &&
            (r.requested > 0 ==> r.w.st.status.AwaitingApproval? && Resumable(r.w.st)) &&
            (r.requested == 0 ==> Presentable(r.w.st))
  {
    WalkOwing(w, ids, ds);
    WalkDispatchable(w, ids, ds);
  }

  /** The walk never changes the status of a run it does not suspend. */
  lemma WalkKeepsStatus(w: Work, ids: seq<CallId>, ds: seq<Disposition>)
    requires |ids| == |ds|
    ensures WalkStep(w, ids, ds).requested == 0 ==> WalkStep(w, ids, ds).w.st.status == w.st.status
  {
    var k := WalkAll(Walk(w, [], 0), ids, ds);
    WalkAllKeepsStatus(Walk(w, [], 0), ids, ds);
    AnswerAllKeepsStatus(k.w, k.batch);
  }

  lemma {:induction false} AnswerAllKeepsStatus(w: Work, ids: seq<CallId>)
    ensures AnswerAll(w, ids).st.status == w.st.status && AnswerAll(w, ids).st.pending == w.st.pending
  {
    if ids != [] {
      AnswerAllKeepsStatus(w, ids[..|ids| - 1]);
    }
  }

  lemma {:induction false} WalkAllKeepsStatus(k: Walk, ids: seq<CallId>, ds: seq<Disposition>)
    requires |ids| == |ds|
    ensures WalkAll(k, ids, ds).w.st.status == k.w.st.status
  {
    if ids != [] {
      var n := |ids| - 1;
      WalkAllKeepsStatus(k, ids[..n], ds[..n]);
      var f := WalkAll(k, ids[..n], ds[..n]);
      AnswerAllKeepsStatus(f.w, f.batch);
    }
  }
}
