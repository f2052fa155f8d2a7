/** What walks, cancellations and resumes leave to be answered, whatever ids are reused: the pending
    approvals always name exactly the calls that keep a transcript from being acceptable. */
module Completion {
  import opened Options
  import opened Transcript
  import opened RunStates
  import opened Approvals
  import opened Resume
  import opened ResumeExact

  /** Once what is pending is decided the transcript is acceptable. */
  ghost predicate Completable(st: RunState) {
    Completes(st.messages, Heads(st.pending))
  }

  lemma NothingLeft(ms: seq<Message>)
    ensures Completes(ms, {}) <==> Accepted(ms)
  {
    AcceptedByIds(ms);
  }

  lemma CompletableAccepted(st: RunState)
    requires st.pending == []
    ensures Completable(st) <==> Accepted(st.messages)
  {
    assert Heads(st.pending) == {};
    NothingLeft(st.messages);
  }

  lemma HeadsAppend(pending: seq<Approval>, more: seq<Approval>)
    ensures Heads(pending + more) == Heads(pending) + Heads(more)
  {
  }

  /** Answering announced calls leaves those owed that were neither answered now nor before. */
  lemma AnswersComplete(ms: seq<Message>, owed: set<CallId>, ids: seq<CallId>, left: set<CallId>)
    requires Completes(ms, owed) && (forall id | id in ids :: Announced(ms, id))
    requires forall id | id in left :: Announced(ms, id)
    requires forall id | id in owed :: id in ids || id in left || ResolvedSomewhere(ms, id)
    ensures Completes(ms + ToolsOf(ids), left)
  {
    var out := ms + ToolsOf(ids);
    ToolsKeepOrphans(ms, ids);
    forall id | Announced(out, id)
      ensures ResolvedSomewhere(out, id) || id in left
    {
      if id in ids {
        var k :| 0 <= k < |ids| && ids[k] == id;
        assert out[|ms| + k] == Tool(id);
      } else if ResolvedSomewhere(ms, id) {
        var j :| 0 <= j < |ms| && ms[j] == Tool(id);
        assert out[j] == Tool(id);
      }
    }
  }

  lemma AnswerCompletes(ms: seq<Message>, left: set<CallId>, id: CallId)
    requires Completes(ms, left + {id})
    ensures Completes(ms + [Tool(id)], left)
  {
    AnswersComplete(ms, left + {id}, [id], left);
    assert ToolsOf([id]) == [Tool(id)];
  }

  lemma LastApart(todo: set<CallId>, ids: seq<CallId>)
    requires ids != []
    ensures var n := |ids| - 1; todo + ToSet(ids) == (todo + {ids[n]}) + ToSet(ids[..n])
  {
    var n := |ids| - 1;
    assert ids == ids[..n] + [ids[n]];
    assert ToSet(ids) == ToSet(ids[..n]) + {ids[n]};
  }

  // ---------------------------------------------------------------- the walk

  ghost predicate WalkOwes(k: Walk, todo: set<CallId>) {
    k.w.buf == k.w.st.messages && Completes(k.w.st.messages, Heads(k.w.st.pending) + todo + ToSet(k.batch))
  }

  lemma FlushCompletes(k: Walk, todo: set<CallId>)
    requires WalkOwes(k, todo)
    ensures WalkOwes(Flush(k), todo)
  {
    var owed := Heads(k.w.st.pending) + todo + ToSet(k.batch);
    AnswerMessages(k.w, k.batch);
    AnswerAllPending(k.w, k.batch);
    AnswersComplete(k.w.st.messages, owed, k.batch, Heads(k.w.st.pending) + todo);
    assert Heads(k.w.st.pending) + todo + ToSet([]) == Heads(k.w.st.pending) + todo;
  }

  lemma SettledCompletes(k: Walk, id: CallId, todo: set<CallId>)
    requires WalkOwes(k, todo + {id})
    ensures WalkOwes(k.(w := Answer(k.w, id)), todo)
  {
    var left := Heads(k.w.st.pending) + todo + ToSet(k.batch);
    assert Heads(k.w.st.pending) + (todo + {id}) + ToSet(k.batch) == left + {id};
    AnswerCompletes(k.w.st.messages, left, id);
  }

  lemma QueuedCompletes(k: Walk, id: CallId, todo: set<CallId>)
    requires WalkOwes(k, todo + {id})
    ensures WalkOwes(k.(batch := k.batch + [id]), todo)
  {
    assert ToSet(k.batch + [id]) == ToSet(k.batch) + {id};
    assert Heads(k.w.st.pending) + (todo + {id}) + ToSet(k.batch)
        == Heads(k.w.st.pending) + todo + ToSet(k.batch + [id]);
  }

  /** Approvals headed by the call take it over. */
  lemma PendingCompletes(k: Walk, id: CallId, more: seq<Approval>, todo: set<CallId>, w: Work)
    requires WalkOwes(k, todo + {id}) && Heads(more) == {id}
    requires w.buf == k.w.buf && w.st.messages == k.w.st.messages && w.st.pending == k.w.st.pending + more
    ensures WalkOwes(k.(w := w, requested := k.requested + 1), todo)
  {
    HeadsAppend(k.w.st.pending, more);
    assert Heads(k.w.st.pending) + (todo + {id}) + ToSet(k.batch)
        == Heads(w.st.pending) + todo + ToSet(k.batch);
  }

  lemma MirrorHeads(park: CallId, child: seq<Approval>)
    requires child != []
    ensures Heads(Mirror(park, child)) == {park}
  {
    var more := Mirror(park, child);
    assert more[0] in more;
  }

  lemma WalkOneCompletes(k: Walk, id: CallId, d: Disposition, todo: set<CallId>)
    requires WalkOwes(k, todo + {id})
    ensures WalkOwes(WalkOne(k, id, d), todo)
  {
    match d {
      case FailFast => SettledCompletes(k, id, todo);
      case Batched(folds) => QueuedCompletes(k.(w := FoldAll(k.w, folds)), id, todo);
      case Gated =>
        FlushCompletes(k, todo + {id});
        var more := [Approval(id, [])];
        assert more[0] in more;
        assert Heads(more) == {id};
        PendingCompletes(Flush(k), id, more, todo, WalkOne(k, id, d).w);
      case SubSettled(folds) =>
        FlushCompletes(k, todo + {id});
        SettledCompletes(Flush(k).(w := FoldAll(Flush(k).w, folds)), id, todo);
      case SubParked(first, rest) =>
        FlushCompletes(k, todo + {id});
        MirrorHeads(id, [first] + rest);
        PendingCompletes(Flush(k), id, Mirror(id, [first] + rest), todo, WalkOne(k, id, d).w);
    }
  }

  lemma {:induction false} WalkAllCompletes(k: Walk, ids: seq<CallId>, ds: seq<Disposition>, todo: set<CallId>)
    requires |ids| == |ds| && WalkOwes(k, todo + ToSet(ids))
    ensures WalkOwes(WalkAll(k, ids, ds), todo)
  {
    if ids == [] {
      assert todo + ToSet(ids) == todo;
    } else {
      var n := |ids| - 1;
      LastApart(todo, ids);
      WalkAllCompletes(k, ids[..n], ds[..n], todo + {ids[n]});
      WalkOneCompletes(WalkAll(k, ids[..n], ds[..n]), ids[n], ds[n], todo);
    }
  }

  /** Whatever becomes of the calls of a step, its walk leaves exactly the pending approvals to answer. */
  lemma WalkCompletes(w: Work, ids: seq<CallId>, ds: seq<Disposition>)
    requires |ids| == |ds| && w.buf == w.st.messages && w.st.pending == [] && Completes(w.st.messages, ToSet(ids))
    ensures var k := WalkStep(w, ids, ds); k.w.buf == k.w.st.messages && Completable(k.w.st)
  {
    var k := Walk(w, [], 0);
    assert Heads([]) + ({} + ToSet(ids)) + ToSet([]) == ToSet(ids);
    WalkAllCompletes(k, ids, ds, {});
    FlushCompletes(WalkAll(k, ids, ds), {});
    var st := Flush(WalkAll(k, ids, ds)).w.st;
    assert Heads(st.pending) + {} + ToSet([]) == Heads(st.pending);
  }

  // ---------------------------------------------------------------- cancelling

  /** The deny policy repairs the transcript: the condition of `DenyAcceptedExactly`. */
  ghost predicate Deniable(st: RunState) {
    Completes(st.messages, ToSet(CallIds(st.pending)))
  }

  /** It does when no approval is mirrored from a parked sub-agent run. */
  lemma OwnDeniable(st: RunState)
    requires Completable(st) && forall a | a in st.pending :: a.path == []
    ensures Deniable(st)
  {
    var ids := CallIds(st.pending);
    assert Heads(st.pending) == ToSet(ids) by {
      forall id | id in Heads(st.pending)
        ensures id in ids
      {
        var a :| a in st.pending && Head(a) == id;
        var k :| 0 <= k < |st.pending| && st.pending[k] == a;
        assert ids[k] == id;
      }
      forall id | id in ids
        ensures id in Heads(st.pending)
      {
        var k :| 0 <= k < |ids| && ids[k] == id;
        assert st.pending[k] in st.pending && Head(st.pending[k]) == id;
      }
    }
  }

  lemma CancelCompletes(w: Work, policy: Policy)
    requires w.buf == w.st.messages && Completable(w.st) && (policy.Deny? ==> Deniable(w.st))
    ensures var r := Cancel(w, policy); r.buf == r.st.messages && (r.st.status.Failed? || Completable(r.st))
  {
    if policy.Deny? {
      DenyAcceptedExactly(w);
      DenyAllMirrors(w, w.st.pending);
      CompletableAccepted(Cancel(w, policy).st);
    }
  }

  lemma {:induction false} DenyAllMirrors(w: Work, denied: seq<Approval>)
    requires w.buf == w.st.messages
    ensures DenyAll(w, denied).buf == DenyAll(w, denied).st.messages
  {
    if denied != [] {
      DenyAllMirrors(w, denied[..|denied| - 1]);
    }
  }

  // ---------------------------------------------------------------- resuming

  /** A directive leaves the undecided approvals, the granted calls and the routed parks to answer. */
  lemma DirectiveCompletes(w: Work, ds: seq<Decision>)
    requires w.buf == w.st.messages && Completable(w.st)
    ensures var d := ApplyDirective(w, ds);
            d.w.buf == d.w.st.messages &&
            Completes(d.w.st.messages, Heads(d.w.st.pending) + ToSet(d.routed) + ToSet(d.granted))
  {
    var pending := w.st.pending;
    var d := DecideAll(w, pending, ds);
    var denied := DeniedIds(pending, ds);
    var left := Heads(d.still) + ToSet(d.routed) + ToSet(d.granted);
    DecideMessages(w, pending, ds);
    forall id | id in Heads(pending)
      ensures id in denied || id in left || ResolvedSomewhere(w.st.messages, id)
    {
      var a :| a in pending && Head(a) == id;
      StillExactly(w, pending, ds, a);
      if Named(ds, a) {
        DecisionLands(w, ds, a);
      }
    }
    forall id | id in left
      ensures Announced(w.st.messages, id)
    {
      LeftIsOwed(w, ds, id);
    }
    forall id | id in denied
      ensures Announced(w.st.messages, id)
    {
      DeniedExactly(pending, ds, id);
      assert Head(Approval(id, [])) == id;
    }
    AnswersComplete(w.st.messages, Heads(pending), denied, left);
  }

  lemma LeftIsOwed(w: Work, ds: seq<Decision>, id: CallId)
    requires w.buf == w.st.messages
    requires var d := DecideAll(w, w.st.pending, ds); id in Heads(d.still) + ToSet(d.routed) + ToSet(d.granted)
    ensures id in Heads(w.st.pending)
  {
    var d := DecideAll(w, w.st.pending, ds);
    if id in Heads(d.still) {
      var a :| a in d.still && Head(a) == id;
      StillExactly(w, w.st.pending, ds, a);
    } else if id in d.granted {
      GrantedExactly(w, w.st.pending, ds, id);
      assert Head(Approval(id, [])) == id;
    } else {
      RoutedExactly(w, w.st.pending, ds, id);
      var a :| a in w.st.pending && a.path != [] && a.path[0] == id;
      assert Head(a) == id;
    }
  }

  /** Parks in `todo` are still to be visited. */
  ghost predicate SettleOwes(w: Work, todo: set<CallId>) {
    w.buf == w.st.messages && Completes(w.st.messages, Heads(w.st.pending) + todo)
  }

  lemma ReparkCompletes(w: Work, park: CallId, first: Approval, rest: seq<Approval>, todo: set<CallId>)
    requires SettleOwes(w, todo + {park})
    ensures SettleOwes(SettleOne(w, park, Reparked(first, rest)), todo)
  {
    var kept := NotUnder(w.st.pending, park);
    var more := Mirror(park, [first] + rest);
    MirrorHeads(park, [first] + rest);
    HeadsAppend(kept, more);
    forall id | id in Heads(w.st.pending)
      ensures id in Heads(kept) + {park}
    {
      var a :| a in w.st.pending && Head(a) == id;
      assert a in kept || id == park;
    }
    forall id | id in Heads(kept)
      ensures id in Heads(w.st.pending)
    {
      var a :| a in kept && Head(a) == id;
    }
    CompletesSame(w.st.messages, Heads(w.st.pending) + (todo + {park}), Heads(kept + more) + todo);
  }

  lemma CompletesSame(ms: seq<Message>, a: set<CallId>, b: set<CallId>)
    requires Completes(ms, a) && a <= b && b <= a
    ensures Completes(ms, b)
  {
    assert a == b;
  }

  lemma SettleOneCompletes(w: Work, park: CallId, child: Child, todo: set<CallId>)
    requires SettleOwes(w, todo + {park})
    ensures SettleOwes(SettleOne(w, park, child), todo)
  {
    match child {
      case Reparked(first, rest) => ReparkCompletes(w, park, first, rest, todo);
      case Settled(_) =>
        var left := Heads(w.st.pending) + todo;
        assert Heads(w.st.pending) + (todo + {park}) == left + {park};
        AnswerCompletes(w.st.messages, left, park);
    }
  }

  lemma {:induction false} SettleAllCompletes(
      w: Work, heads: seq<CallId>, children: map<CallId, Child>, todo: set<CallId>)
    requires SettleOwes(w, todo + ToSet(heads)) && SettleAll(w, heads, children).AllSettled?
    ensures SettleOwes(SettleAll(w, heads, children).w, todo)
  {
    if heads == [] {
      assert todo + ToSet(heads) == todo;
    } else {
      var n := |heads| - 1;
      SettleSnoc(w, heads, children);
      LastApart(todo, heads);
      SettleAllCompletes(w, heads[..n], children, todo + {heads[n]});
      SettleOneCompletes(SettleAll(w, heads[..n], children).w, heads[n], children[heads[n]], todo);
    }
  }

  lemma DispatchedCompletes(d: Directed)
    requires d.w.buf == d.w.st.messages
    requires Completes(d.w.st.messages, Heads(d.w.st.pending) + ToSet(d.routed) + ToSet(d.granted))
    ensures SettleOwes(Dispatched(d), {} + ToSet(d.routed))
  {
    var left := Heads(d.w.st.pending) + ToSet(d.routed);
    DispatchedMessages(d);
    AnswerAllPending(BeginStep(d.w), d.granted);
    AnswersComplete(d.w.st.messages, left + ToSet(d.granted), d.granted, left);
    assert Heads(d.w.st.pending) + ({} + ToSet(d.routed)) == left;
  }

  /** What a resume returns or enters with is acceptable once what is then pending is decided. */
  ghost predicate OutcomeCompletes(o: Outcome) {
    o.Threw? || (o.w.buf == o.w.st.messages && (o.w.st.status.Failed? || Completable(o.w.st)))
  }

  lemma AfterDirectiveCompletes(d: Directed, children: map<CallId, Child>)
    requires d.w.buf == d.w.st.messages
    requires Completes(d.w.st.messages, Heads(d.w.st.pending) + ToSet(d.routed) + ToSet(d.granted))
    ensures OutcomeCompletes(AfterDirective(d, children))
  {
    if !d.w.st.status.Failed? && Routed(d, children).AllSettled? {
      DispatchedCompletes(d);
      if d.routed != [] {
        SettleAllCompletes(BeginStep(Dispatched(d)), d.routed, children, {});
      }
      var st := Routed(d, children).w.st;
      assert {} + ToSet([]) == {};
      assert Heads(st.pending) + {} == Heads(st.pending);
    }
  }

  /** A failed run that its directive does not decide completely returns failed; any other completable
      state stays completable, whatever the directive and the sub-runs do. */
  lemma ResumeCompletes(w: Work, directive: Option<seq<Decision>>, children: map<CallId, Child>)
    requires w.buf == w.st.messages
    requires Completable(w.st) || (w.st.status.Failed? && !Decides(directive, w.st.pending))
    ensures OutcomeCompletes(ResumeRun(w, directive, children))
  {
    if w.st.status.Failed? && !Decides(directive, w.st.pending) {
      FailedRunReenters(w, directive, children);
      if directive.Some? {
        FailedMirrors(w, directive.value);
      }
    } else if directive.Some? && w.st.pending != [] {
      DirectiveCompletes(w, directive.value);
      AfterDirectiveCompletes(ApplyDirective(w, directive.value), children);
    } else {
      assert Heads(w.st.pending) + ToSet([]) + ToSet([]) == Heads(w.st.pending);
      AfterDirectiveCompletes(Directed(w, [], [], w.st.pending), children);
    }
  }

  lemma FailedMirrors(w: Work, ds: seq<Decision>)
    requires w.buf == w.st.messages
    ensures ApplyDirective(w, ds).w.buf == ApplyDirective(w, ds).w.st.messages
  {
    DecideMessages(w, w.st.pending, ds);
  }
}
