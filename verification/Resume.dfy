/** Cancelling and resuming a run that has approvals pending. */
module Resume {
  import opened Options
  import opened Transcript
  import opened RunStates
  import opened Approvals

  // ---------------------------------------------------------------- cancellation

  /** What `abort` asks to do with pending approvals. */
  datatype Policy = Deny | Hold | Fail

  function DenyAll(w: Work, denied: seq<Approval>): Work {
    if denied == [] then w
    else Say(DenyAll(w, denied[..|denied| - 1]), Tool(denied[|denied| - 1].callId))
  }

  /** What cancelling makes of a run: the approvals are denied one by one, in order, or kept; the run is
      aborted, and failed exactly when the policy says so and an approval is pending. */
  predicate Cancelled(w: Work, policy: Policy, r: Work) {
    && r.acc == w.acc
    && r.st == w.st.(messages := r.st.messages, pending := r.st.pending, status := r.st.status)
    && r.st.status == (if policy.Fail? && w.st.pending != [] then Failed else Aborted)
    && r.st.pending == (if policy.Deny? then [] else w.st.pending)
    && var denials := if policy.Deny? then ToolsOf(CallIds(w.st.pending)) else [];
       r.buf == w.buf + denials && r.st.messages == w.st.messages + denials
  }

  function Cancel(w: Work, policy: Policy): Work {
    if policy.Deny? then
      var d := DenyAll(w, w.st.pending);
      d.(st := d.st.(pending := [], status := Aborted))
    else if policy.Fail? && w.st.pending != [] then
      w.(st := w.st.(status := Failed))
    else
      w.(st := w.st.(status := Aborted))
  }

  method EmitCancellation(w: Work, policy: Policy) returns (r: Work, failed: bool)
    ensures r == Cancel(w, policy)
    ensures Cancelled(w, policy, r)
    ensures failed == (policy.Fail? && w.st.pending != [])
  {
    CancelExactly(w, policy);
    r, failed := w, false;
    if policy == Deny {
      var drained := r.st.pending;
      r := r.(st := r.st.(pending := []));
      for n := 0 to |drained|
        invariant r == DenyAll(w, drained[..n]).(st := DenyAll(w, drained[..n]).st.(pending := []))
      {
        assert drained[..n + 1][..n] == drained[..n];
        r := Say(r, Tool(drained[n].callId));
      }
      assert drained[..|drained|] == drained;
    } else if policy == Fail && r.st.pending != [] {
      r := r.(st := r.st.(status := Failed));
      return r, true;
    }
    r := r.(st := r.st.(status := Aborted));
  }

  lemma {:induction false} DenyAllExactly(w: Work, denied: seq<Approval>)
    ensures var r := DenyAll(w, denied);
            r.acc == w.acc && r.st == w.st.(messages := w.st.messages + ToolsOf(CallIds(denied))) &&
            r.buf == w.buf + ToolsOf(CallIds(denied))
  {
    if denied == [] {
      assert w.buf + [] == w.buf && w.st.messages + [] == w.st.messages;
    } else {
      var n := |denied| - 1;
      DenyAllExactly(w, denied[..n]);
      assert ToolsOf(CallIds(denied)) == ToolsOf(CallIds(denied[..n])) + [Tool(denied[n].callId)];
    }
  }

  /** For every state and policy. */
  lemma CancelExactly(w: Work, policy: Policy)
    ensures Cancelled(w, policy, Cancel(w, policy))
  {
    DenyAllExactly(w, w.st.pending);
    assert w.buf + [] == w.buf && w.st.messages + [] == w.st.messages;
  }

  lemma {:induction false} DenyAllFacts(w: Work, denied: seq<Approval>, owed: set<CallId>)
    requires w.buf == w.st.messages && Owes(w.st.messages, owed)
    requires forall a | a in denied :: a.callId in ScanAll(w.st.messages).group
    ensures var r := DenyAll(w, denied);
            r.buf == r.st.messages && r.st == w.st.(messages := r.st.messages) && r.acc == w.acc &&
            Owes(r.st.messages, owed - set a | a in denied :: a.callId) &&
            ScanAll(r.st.messages).group == ScanAll(w.st.messages).group
  {
    if denied == [] {
      assert owed - (set a | a in denied :: a.callId) == owed;
    } else {
      var n := |denied| - 1;
      var front := denied[..n];
      assert denied == front + [denied[n]];
      DenyAllFacts(w, front, owed);
      var f := DenyAll(w, front);
      AnswerOwed(f.st.messages, owed - (set a | a in front :: a.callId), denied[n].callId);
      assert owed - (set a | a in front :: a.callId) - {denied[n].callId}
          == owed - (set a | a in denied :: a.callId);
    }
  }

  /** A cancellation with nothing parked leaves a resumable state, whatever the policy. */
  lemma CancelSafe(w: Work, policy: Policy)
    requires w.buf == w.st.messages && Resumable(w.st)
    requires policy.Deny? ==> w.st.parks == [] && forall a | a in w.st.pending :: a.path == []
    ensures var r := Cancel(w, policy);
            r.buf == r.st.messages && r.st.steps == w.st.steps &&
            (r.st.status.Failed? || Resumable(r.st)) &&
            (policy.Deny? ==> Presentable(r.st))
  {
    if policy.Deny? {
      var owed := Own(w.st.pending) + ToSet(w.st.parks);
      DenyAllFacts(w, w.st.pending, owed);
      assert owed - (set a | a in w.st.pending :: a.callId) == {};
      assert Own([]) + ToSet([]) == {};
    }
  }

  // ---------------------------------------------------------------- the resume directive

  predicate Names(d: Decision, a: Approval) {
    d.callId == a.callId && d.path == a.path
  }

  /** Some entry of the directive names the approval. */
  ghost predicate Named(ds: seq<Decision>, a: Approval) {
    exists k | 0 <= k < |ds| :: Names(ds[k], a)
  }

  /** The last entry that names the approval gives this verdict. */
  ghost predicate LastSays(ds: seq<Decision>, a: Approval, granted: bool) {
    exists k | 0 <= k < |ds| ::
      Names(ds[k], a) && ds[k].granted == granted && forall j | k < j < |ds| :: !Names(ds[j], a)
  }

  /** The last decision for an approval wins, as in a map built from the list. */
  function Lookup(ds: seq<Decision>, a: Approval): Option<bool> {
    if ds == [] then None
    else
      var d := ds[|ds| - 1];
      if Names(d, a) then Some(d.granted) else Lookup(ds[..|ds| - 1], a)
  }

  lemma NamedByLast(ds: seq<Decision>, a: Approval, v: bool)
    requires ds != [] && Names(ds[|ds| - 1], a)
    ensures Named(ds, a) && (LastSays(ds, a, v) <==> ds[|ds| - 1].granted == v)
  {
    var n := |ds| - 1;
    if LastSays(ds, a, v) {
      var k :| 0 <= k < |ds| && Names(ds[k], a) && ds[k].granted == v && forall j | k < j < |ds| :: !Names(ds[j], a);
      assert k == n;
    }
  }

  lemma NamedBefore(ds: seq<Decision>, a: Approval, v: bool)
    requires ds != [] && !Names(ds[|ds| - 1], a)
    ensures Named(ds, a) <==> Named(ds[..|ds| - 1], a)
    ensures LastSays(ds, a, v) <==> LastSays(ds[..|ds| - 1], a, v)
  {
    var front := ds[..|ds| - 1];
    assert forall k | 0 <= k < |front| :: front[k] == ds[k];
    if LastSays(ds, a, v) {
      var k :| 0 <= k < |ds| && Names(ds[k], a) && ds[k].granted == v && forall j | k < j < |ds| :: !Names(ds[j], a);
      assert Names(front[k], a) && front[k].granted == v && forall j | k < j < |front| :: !Names(front[j], a);
    }
    if LastSays(front, a, v) {
      var k :| 0 <= k < |front| && Names(front[k], a) && front[k].granted == v &&
               forall j | k < j < |front| :: !Names(front[j], a);
      assert Names(ds[k], a) && ds[k].granted == v && forall j | k < j < |ds| :: !Names(ds[j], a);
    }
    if Named(ds, a) {
      var k :| 0 <= k < |ds| && Names(ds[k], a);
      assert Names(front[k], a);
    }
  }

  /** An approval has a verdict exactly when an entry names it, and then that of the last such entry. */
  lemma {:induction false} LookupExactly(ds: seq<Decision>, a: Approval, v: bool)
    ensures Lookup(ds, a) == None <==> !Named(ds, a)
    ensures Lookup(ds, a) == Some(v) <==> LastSays(ds, a, v)
  {
    if ds != [] {
      if Names(ds[|ds| - 1], a) {
        NamedByLast(ds, a, v);
      } else {
        NamedBefore(ds, a, v);
        LookupExactly(ds[..|ds| - 1], a, v);
      }
    }
  }

  /** The directive decides every pending approval. */
  ghost predicate Covers(ds: seq<Decision>, pending: seq<Approval>) {
    forall a | a in pending :: Named(ds, a)
  }

  /** It decides every approval, and there is one. */
  ghost predicate Decides(directive: Option<seq<Decision>>, pending: seq<Approval>) {
    directive.Some? && pending != [] && Covers(directive.value, pending)
  }

  datatype Directed = Directed(w: Work, granted: seq<CallId>, routed: seq<CallId>, still: seq<Approval>)

  function DecideOne(d: Directed, a: Approval, ds: seq<Decision>, journaled: set<CallId>): Directed {
    match Lookup(ds, a)
    case None => d.(still := d.still + [a])
    case Some(granted) =>
      if a.path != [] then d.(routed := AddId(d.routed, a.path[0]))
      else if granted then
        if a.callId in journaled && Tool(a.callId) in d.w.buf then d   // already ran: replayed
        else d.(granted := d.granted + [a.callId])
      else d.(w := Say(d.w, Tool(a.callId)))
  }

  function DecideAll(w: Work, pending: seq<Approval>, ds: seq<Decision>): Directed {
    if pending == [] then Directed(w, [], [], [])
    else
      var n := |pending| - 1;
      DecideOne(DecideAll(w, pending[..n], ds), pending[n], ds, Journaled(w.st.steps))
  }

  function ApplyDirective(w: Work, ds: seq<Decision>): Directed {
    var d := DecideAll(w, w.st.pending, ds);
    d.(w := d.w.(st := d.w.st.(pending := d.still, status := if d.still == [] then Running else d.w.st.status)))
  }

  method ProcessResumeDirective(w: Work, ds: seq<Decision>) returns (d: Directed)
    ensures d == ApplyDirective(w, ds)
  {
    var journaled := Journaled(w.st.steps);
    d := Directed(w, [], [], []);
    var pending := w.st.pending;
    for n := 0 to |pending|
      invariant d == DecideAll(w, pending[..n], ds)
    {
      assert pending[..n + 1][..n] == pending[..n];
      var a := pending[n];
      var decision := Lookup(ds, a);
      if decision.None? {
        d := d.(still := d.still + [a]);
      } else if a.path != [] {
        d := d.(routed := AddId(d.routed, a.path[0]));
      } else if decision.value {
        if !(a.callId in journaled && Tool(a.callId) in d.w.buf) {
          d := d.(granted := d.granted + [a.callId]);
        }
      } else {
        d := d.(w := Say(d.w, Tool(a.callId)));
      }
    }
    assert pending[..|pending|] == pending;
    d := d.(w := d.w.(st := d.w.st.(pending := d.still)));
    if d.still == [] {
      d := d.(w := d.w.(st := d.w.st.(status := Running)));
    }
  }

  // ---------------------------------------------------------------- dispatch and sub-runs

  /** Executes the granted calls in a journal step of their own. */
  function DispatchResumed(w: Work, granted: seq<CallId>): Work {
    AnswerAll(BeginStep(w), granted)
  }

  /** How a parked sub-agent run ends once decisions are routed into it. */
  datatype Child =
    | Reparked(first: Approval, rest: seq<Approval>)
    | Settled(folds: seq<(string, Usage)>)

  function NotUnder(pending: seq<Approval>, park: CallId): (r: seq<Approval>)
    ensures forall a :: a in r <==> a in pending && (a.path == [] || a.path[0] != park)
  {
    if pending == [] then []
    else
      var n := |pending| - 1;
      var a := pending[n];
      assert pending == pending[..n] + [a];
      if a.path == [] || a.path[0] != park then NotUnder(pending[..n], park) + [a] else NotUnder(pending[..n], park)
  }

  function Without(parks: seq<CallId>, park: CallId): (r: seq<CallId>)
    ensures forall p :: p in r ==> p in parks
    ensures forall p :: p in parks && p != park ==> p in r
    ensures Distinct(parks) ==> Distinct(r) && park !in r
  {
    if parks == [] then []
    else if parks[0] == park then parks[1..]
    else
      var rest := Without(parks[1..], park);
      assert parks == [parks[0]] + parks[1..];
      assert Distinct(parks) ==> parks[0] !in parks[1..] && Distinct(parks[1..]);
      [parks[0]] + rest
  }

  function SettleOne(w: Work, park: CallId, child: Child): Work {
    match child
    case Reparked(first, rest) =>
      w.(st := w.st.(pending := NotUnder(w.st.pending, park) + Mirror(park, [first] + rest),
                     status := AwaitingApproval))
    case Settled(folds) =>
      var f := FoldAll(w, folds);
      Answer(f.(st := f.st.(parks := Without(f.st.parks, park))), park)
  }

  /** Every routed park was visited, or one was missing and the resume threw where it stood. */
  datatype Settlement = AllSettled(w: Work) | TargetMissing(w: Work)

  /** Routes decisions into the parked runs `heads`, in order. */
  function SettleAll(w: Work, heads: seq<CallId>, children: map<CallId, Child>): Settlement {
    if heads == [] then AllSettled(w)
    else
      var n := |heads| - 1;
      match SettleAll(w, heads[..n], children)
      case TargetMissing(f) => TargetMissing(f)
      case AllSettled(f) =>
        if heads[n] in f.st.parks && heads[n] in children then AllSettled(SettleOne(f, heads[n], children[heads[n]]))
        else TargetMissing(f)
  }

  function BeginStep(w: Work): Work {
    w.(st := OpenStep(w.st, MaxStep(w.st.steps) + 1, ZERO))
  }

  function ResumeSubRuns(w: Work, heads: seq<CallId>, children: map<CallId, Child>): Settlement {
    SettleAll(BeginStep(w), heads, children)
  }

  // ---------------------------------------------------------------- resume, end to end

  /** A resumed run returns at once, enters the provider loop, or throws; the caller's state object
      is left as `w` says in each case. */
  datatype Outcome = Return(w: Work) | Enter(w: Work) | Threw(w: Work)

  /** The guard in front of the provider loop. */
  predicate StillSuspended(st: RunState) {
    st.status.AwaitingApproval? || (st.status.Aborted? && st.pending != [])
  }

  function Dispatched(d: Directed): Work {
    if d.granted == [] then d.w else DispatchResumed(d.w, d.granted)
  }

  function Routed(d: Directed, children: map<CallId, Child>): Settlement {
    if d.routed == [] then AllSettled(Dispatched(d)) else ResumeSubRuns(Dispatched(d), d.routed, children)
  }

  function AfterDirective(d: Directed, children: map<CallId, Child>): Outcome {
    if d.w.st.status.Failed? then Return(d.w)
    else
      match Routed(d, children)
      case TargetMissing(w) => Threw(w)
      case AllSettled(w) => if StillSuspended(w.st) then Return(w) else Enter(w)
  }

  function ResumeRun(w: Work, directive: Option<seq<Decision>>, children: map<CallId, Child>): Outcome {
    AfterDirective(
      if directive.Some? && w.st.pending != [] then ApplyDirective(w, directive.value)
      else Directed(w, [], [], w.st.pending),
      children)
  }

  // ---------------------------------------------------------------- deciding, dispatching, settling

  /** After some approvals are decided: only undecided own calls, granted calls and parks are owed,
      and every decided mirror has its park routed. */
  ghost predicate Deciding(w: Work, d: Directed, done: seq<Approval>) {
    d.w.buf == d.w.st.messages &&
    d.w.st == w.st.(messages := d.w.st.messages) &&
    ScanAll(w.st.messages).Group? && ScanAll(d.w.st.messages).Group? &&
    ScanAll(d.w.st.messages).group == ScanAll(w.st.messages).group &&
    ScanAll(d.w.st.messages).open <= ScanAll(w.st.messages).open &&
    (forall id | id in ScanAll(d.w.st.messages).open && Tool(id) in d.w.st.messages :: Tool(id) in w.st.messages) &&
    (forall a | a in done && a.path == [] && a.callId in ScanAll(d.w.st.messages).open ::
       a in d.still || a.callId in d.granted) &&
    (forall a | a in done && a.path != [] :: a in d.still || a.path[0] in d.routed) &&
    (forall a | a in d.still :: a in done) &&
    ToSet(d.granted) <= Own(done) &&
    Distinct(d.routed)
  }

  lemma DecideOneFacts(w: Work, d: Directed, done: seq<Approval>, a: Approval, ds: seq<Decision>)
    requires Deciding(w, d, done)
    requires a.path == [] ==> a.callId in ScanAll(w.st.messages).group
    requires a.path == [] && a.callId in OpenIds(w.st.messages) ==> !Replayable(w.st, a.callId)
    ensures Deciding(w, DecideOne(d, a, ds, Journaled(w.st.steps)), done + [a])
  {
    var r := DecideOne(d, a, ds, Journaled(w.st.steps));
    assert Own(done + [a]) == Own(done) + Own([a]);
    assert a in [a];
    if Lookup(ds, a) == Some(false) && a.path == [] {
      ScanAppend(d.w.st.messages, Tool(a.callId));
    }
    if r.granted != d.granted {
      assert ToSet(r.granted) == ToSet(d.granted) + {a.callId};
    }
  }

  lemma {:induction false} DecideAllFacts(w: Work, pending: seq<Approval>, ds: seq<Decision>, owed: set<CallId>)
    requires w.buf == w.st.messages && Owes(w.st.messages, owed) && Own(pending) <= owed
    requires forall id | id in Own(pending) && id in OpenIds(w.st.messages) :: !Replayable(w.st, id)
    ensures Deciding(w, DecideAll(w, pending, ds), pending)
  {
    if pending != [] {
      var n := |pending| - 1;
      assert pending == pending[..n] + [pending[n]];
      assert Own(pending[..n]) <= Own(pending);
      DecideAllFacts(w, pending[..n], ds, owed);
      DecideOneFacts(w, DecideAll(w, pending[..n], ds), pending[..n], pending[n], ds);
    }
  }

  lemma {:induction false} StillUncovered(w: Work, pending: seq<Approval>, ds: seq<Decision>)
    ensures DecideAll(w, pending, ds).still == [] <==> Covers(ds, pending)
  {
    if pending != [] {
      var n := |pending| - 1;
      assert pending == pending[..n] + [pending[n]];
      StillUncovered(w, pending[..n], ds);
      LookupExactly(ds, pending[n], true);
      assert Covers(ds, pending) <==> Covers(ds, pending[..n]) && Named(ds, pending[n]);
    }
  }

  lemma {:induction false} DirectiveKeepsStatus(w: Work, pending: seq<Approval>, ds: seq<Decision>)
    ensures DecideAll(w, pending, ds).w.st.status == w.st.status
    ensures (forall a | a in pending :: a.path == []) ==> DecideAll(w, pending, ds).routed == []
  {
    if pending != [] {
      DirectiveKeepsStatus(w, pending[..|pending| - 1], ds);
    }
  }

  /** Status and approvals fit together. */
  ghost predicate Fits(st: RunState) {
    !st.status.Failed? &&
    (st.pending != [] ==> st.status.AwaitingApproval? || st.status.Aborted?) &&
    (st.status.AwaitingApproval? ==> st.pending != [])
  }

  /** Between two settled sub-runs: parks still to be visited may have lost their mirrors. */
  ghost predicate Settling(w: Work, todo: seq<CallId>) {
    w.buf == w.st.messages && Fits(w.st) && Distinct(w.st.parks) && Distinct(todo) &&
    Owes(w.st.messages, Own(w.st.pending) + ToSet(w.st.parks)) &&
    forall p | p in w.st.parks :: HasMirror(w.st.pending, p) || p in todo
  }

  lemma ReparkFacts(w: Work, todo: seq<CallId>, first: Approval, rest: seq<Approval>)
    requires todo != [] && Settling(w, todo) && todo[0] in w.st.parks
    ensures Settling(SettleOne(w, todo[0], Reparked(first, rest)), todo[1..])
  {
    var park := todo[0];
    var kept := NotUnder(w.st.pending, park);
    var more := Mirror(park, [first] + rest);
    OwnAppend(kept, more);
    assert Own(more) == {};
    assert Own(kept) == Own(w.st.pending) by {
      forall id | id in Own(w.st.pending)
        ensures id in Own(kept)
      {
        var a :| a in w.st.pending && a.path == [] && a.callId == id;
        assert a in kept;
      }
    }
    forall p | p in w.st.parks
      ensures HasMirror(kept + more, p) || p in todo[1..]
    {
      if p == park {
        assert more[0] in kept + more;
      } else if HasMirror(w.st.pending, p) {
        var a :| a in w.st.pending && a.path != [] && a.path[0] == p;
        assert a in kept + more;
      } else {
        var i :| 0 <= i < |todo| && todo[i] == p;
        assert todo[1..][i - 1] == p;
      }
    }
  }

  lemma SettledFacts(w: Work, todo: seq<CallId>, folds: seq<(string, Usage)>)
    requires todo != [] && Settling(w, todo) && todo[0] in w.st.parks
    ensures Settling(SettleOne(w, todo[0], Settled(folds)), todo[1..])
  {
    var park := todo[0];
    var f := FoldAll(w, folds);
    var parks := Without(w.st.parks, park);
    var owed := Own(w.st.pending) + ToSet(w.st.parks);
    AnswerFacts(f.(st := f.st.(parks := parks)), park, owed);
    var r := SettleOne(w, park, Settled(folds));
    OwesWiden(r.st.messages, owed - {park}, Own(w.st.pending) + ToSet(parks));
    forall p | p in parks
      ensures HasMirror(w.st.pending, p) || p in todo[1..]
    {
      assert p in w.st.parks && p != park;
      if !HasMirror(w.st.pending, p) {
        var i :| 0 <= i < |todo| && todo[i] == p;
        assert todo[1..][i - 1] == p;
      }
    }
  }

  lemma {:induction false} SettleAllFacts(w: Work, heads: seq<CallId>, n: nat, children: map<CallId, Child>)
    requires n <= |heads| && Settling(w, heads)
    ensures SettleAll(w, heads[..n], children).AllSettled? ==>
              Settling(SettleAll(w, heads[..n], children).w, heads[n..])
  {
    if n == 0 {
      assert heads[..0] == [] && heads[0..] == heads;
    } else {
      SettleAllFacts(w, heads, n - 1, children);
      assert heads[..n][..n - 1] == heads[..n - 1];
      if SettleAll(w, heads[..n], children).AllSettled? {
        var f := SettleAll(w, heads[..n - 1], children).w;
        var todo := heads[n - 1..];
        assert todo[1..] == heads[n..];
        match children[heads[n - 1]] {
          case Reparked(first, rest) => ReparkFacts(f, todo, first, rest);
          case Settled(folds) => SettledFacts(f, todo, folds);
        }
      }
    }
  }

  /** The directive leaves only undecided, granted and parked calls owed. */
  lemma DirectiveFacts(w: Work, ds: seq<Decision>)
    requires w.buf == w.st.messages && Resumable(w.st) && !w.st.status.Failed? && w.st.pending != []
    ensures var d := ApplyDirective(w, ds);
            d.w.buf == d.w.st.messages && Fits(d.w.st) && Distinct(d.w.st.parks) && Distinct(d.routed) &&
            Owes(d.w.st.messages, Own(d.w.st.pending) + ToSet(d.w.st.parks) + ToSet(d.granted)) &&
            forall p | p in d.w.st.parks :: HasMirror(d.w.st.pending, p) || p in d.routed
  {
    var owed := Own(w.st.pending) + ToSet(w.st.parks);
    DecideAllFacts(w, w.st.pending, ds, owed);
    var d := DecideAll(w, w.st.pending, ds);
    var left := Own(d.still) + ToSet(w.st.parks) + ToSet(d.granted);
    forall id | id in ScanAll(d.w.st.messages).open
      ensures id in left
    {
      if id in Own(w.st.pending) {
        var a :| a in w.st.pending && a.path == [] && a.callId == id;
        assert a in d.still || a.callId in d.granted;
      }
    }
    assert left <= ScanAll(d.w.st.messages).group;
    forall p | p in w.st.parks
      ensures HasMirror(d.still, p) || p in d.routed
    {
      assert HasMirror(w.st.pending, p);
      var a :| a in w.st.pending && a.path != [] && a.path[0] == p;
      assert a in d.still || a.path[0] in d.routed;
    }
  }

  lemma DispatchFacts(d: Directed)
    requires d.w.buf == d.w.st.messages && Fits(d.w.st) && Distinct(d.w.st.parks) && Distinct(d.routed)
    requires Owes(d.w.st.messages, Own(d.w.st.pending) + ToSet(d.w.st.parks) + ToSet(d.granted))
    requires forall p | p in d.w.st.parks :: HasMirror(d.w.st.pending, p) || p in d.routed
    ensures Settling(Dispatched(d), d.routed)
  {
    var rest := Own(d.w.st.pending) + ToSet(d.w.st.parks);
    if d.granted != [] {
      var begun := BeginStep(d.w);
      AnswerAllFacts(begun, d.granted, rest + ToSet(d.granted));
      OwesWiden(DispatchResumed(d.w, d.granted).st.messages, rest + ToSet(d.granted) - ToSet(d.granted), rest);
    } else {
      assert rest + ToSet(d.granted) == rest;
    }
  }

  lemma SubRunFacts(w: Work, heads: seq<CallId>, children: map<CallId, Child>)
    requires Settling(w, heads)
    ensures ResumeSubRuns(w, heads, children).AllSettled? ==> Settling(ResumeSubRuns(w, heads, children).w, [])
  {
    SettleAllFacts(BeginStep(w), heads, |heads|, children);
    assert heads[..|heads|] == heads && heads[|heads|..] == [];
  }

  /** With every routed park visited, the guard lets through exactly the states that owe nothing. */
  lemma GuardFacts(w: Work)
    requires Settling(w, [])
    ensures Owing(w.st)
    ensures !StillSuspended(w.st) ==> Presentable(w.st)
  {
    assert Mirrored(w.st.pending, w.st.parks);
    NothingPendingNothingParked(w.st.pending, w.st.parks);
    if !StillSuspended(w.st) {
      assert Own(w.st.pending) + ToSet(w.st.parks) == {};
    }
  }

  lemma AfterDirectiveSafe(d: Directed, children: map<CallId, Child>)
    requires d.w.buf == d.w.st.messages && Fits(d.w.st) && Distinct(d.w.st.parks) && Distinct(d.routed)
    requires Owes(d.w.st.messages, Own(d.w.st.pending) + ToSet(d.w.st.parks) + ToSet(d.granted))
    requires forall p | p in d.w.st.parks :: HasMirror(d.w.st.pending, p) || p in d.routed
    ensures var r := AfterDirective(d, children);
            (r.Return? ==> r.w.buf == r.w.st.messages && Owing(r.w.st) && !r.w.st.status.Failed?) &&
            (r.Enter? ==> r.w.buf == r.w.st.messages && Presentable(r.w.st) && Fits(r.w.st))
  {
    DispatchFacts(d);
    SubRunFacts(Dispatched(d), d.routed, children);
    var r := AfterDirective(d, children);
    if !r.Threw? {
      GuardFacts(r.w);
    }
  }

  // ---------------------------------------------------------------- calls that look as if they ran

  /** No call became open, none that stayed open began to look as if it ran, and no new own approval. */
  ghost predicate Follows(st: RunState, st': RunState) {
    Steady(st, st') && Own(st'.pending) <= Own(st.pending)
  }

  lemma FollowsTrans(a: RunState, b: RunState, c: RunState)
    requires Follows(a, b) && Follows(b, c)
    ensures Follows(a, c)
  {
    SteadyTrans(a, b, c);
  }

  lemma FollowsDispatchable(st: RunState, st': RunState)
    requires Follows(st, st') && Dispatchable(st)
    ensures Dispatchable(st')
  {
  }

  lemma {:induction false} DecideAllFollows(w: Work, pending: seq<Approval>, ds: seq<Decision>)
    ensures Steady(w.st, DecideAll(w, pending, ds).w.st)
    ensures forall a | a in DecideAll(w, pending, ds).still :: a in pending
  {
    if pending != [] {
      var n := |pending| - 1;
      DecideAllFollows(w, pending[..n], ds);
      var d := DecideAll(w, pending[..n], ds);
      SaySteady(d.w, pending[n].callId);
      SteadyTrans(w.st, d.w.st, Say(d.w, Tool(pending[n].callId)).st);
      assert pending == pending[..n] + [pending[n]];
    }
  }

  lemma DirectiveFollows(w: Work, ds: seq<Decision>)
    ensures Follows(w.st, ApplyDirective(w, ds).w.st)
  {
    DecideAllFollows(w, w.st.pending, ds);
    var d := DecideAll(w, w.st.pending, ds);
    SteadySame(d.w.st, ApplyDirective(w, ds).w.st);
    SteadyTrans(w.st, d.w.st, ApplyDirective(w, ds).w.st);
  }

  lemma BeginFollows(w: Work)
    ensures Follows(w.st, BeginStep(w).st)
  {
    var steps := BeginStep(w).st.steps;
    assert Journaled(steps) == Journaled(w.st.steps) by {
      forall id | id in Journaled(w.st.steps)
        ensures id in Journaled(steps)
      {
        var s :| s in w.st.steps && id in s.calls;
        assert s in steps;
      }
    }
    SteadySame(w.st, BeginStep(w).st);
  }

  lemma DispatchFollows(d: Directed)
    ensures Follows(d.w.st, Dispatched(d).st)
  {
    BeginFollows(d.w);
    AnswerAllSteady(BeginStep(d.w), d.granted);
    AnswerAllPending(BeginStep(d.w), d.granted);
    SteadySame(d.w.st, d.w.st);
    SteadyTrans(d.w.st, BeginStep(d.w).st, DispatchResumed(d.w, d.granted).st);
  }

  lemma SettleOneFollows(w: Work, park: CallId, child: Child)
    ensures Follows(w.st, SettleOne(w, park, child).st)
  {
    match child {
      case Reparked(first, rest) =>
        SteadySame(w.st, SettleOne(w, park, child).st);
        OwnAppend(NotUnder(w.st.pending, park), Mirror(park, [first] + rest));
      case Settled(folds) =>
        var f := FoldAll(w, folds);
        var g := f.(st := f.st.(parks := Without(f.st.parks, park)));
        SteadySame(w.st, g.st);
        AnswerSteady(g, park);
        SteadyTrans(w.st, g.st, Answer(g, park).st);
    }
  }

  lemma {:induction false} SettleAllFollows(w: Work, heads: seq<CallId>, children: map<CallId, Child>)
    ensures Follows(w.st, SettleAll(w, heads, children).w.st)
  {
    SteadySame(w.st, w.st);
    if heads != [] {
      var n := |heads| - 1;
      SettleAllFollows(w, heads[..n], children);
      var f := SettleAll(w, heads[..n], children);
      if SettleAll(w, heads, children).AllSettled? {
        SettleOneFollows(f.w, heads[n], children[heads[n]]);
        FollowsTrans(w.st, f.w.st, SettleAll(w, heads, children).w.st);
      }
    }
  }

  lemma AfterDirectiveFollows(d: Directed, children: map<CallId, Child>)
    ensures Follows(d.w.st, AfterDirective(d, children).w.st)
  {
    SteadySame(d.w.st, d.w.st);
    var w1 := Dispatched(d);
    DispatchFollows(d);
    BeginFollows(w1);
    SettleAllFollows(BeginStep(w1), d.routed, children);
    FollowsTrans(d.w.st, w1.st, BeginStep(w1).st);
    FollowsTrans(d.w.st, BeginStep(w1).st, ResumeSubRuns(w1, d.routed, children).w.st);
  }

  lemma ResumeFollows(w: Work, directive: Option<seq<Decision>>, children: map<CallId, Child>)
    ensures Follows(w.st, ResumeRun(w, directive, children).w.st)
  {
    if directive.Some? && w.st.pending != [] {
      var d := ApplyDirective(w, directive.value);
      DirectiveFollows(w, directive.value);
      AfterDirectiveFollows(d, children);
      FollowsTrans(w.st, d.w.st, AfterDirective(d, children).w.st);
    } else {
      AfterDirectiveFollows(Directed(w, [], [], w.st.pending), children);
    }
  }

  // ---------------------------------------------------------------- resuming is safe

  lemma ResumeOwing(w: Work, directive: Option<seq<Decision>>, children: map<CallId, Child>)
    requires w.buf == w.st.messages && Resumable(w.st) && !w.st.status.Failed?
    ensures var r := ResumeRun(w, directive, children);
            (r.Return? ==> r.w.buf == r.w.st.messages && Owing(r.w.st) && !r.w.st.status.Failed?) &&
            (r.Enter? ==> r.w.buf == r.w.st.messages && Presentable(r.w.st) && Fits(r.w.st))
  {
    if directive.Some? && w.st.pending != [] {
      DirectiveFacts(w, directive.value);
      AfterDirectiveSafe(ApplyDirective(w, directive.value), children);
    } else {
      var d := Directed(w, [], [], w.st.pending);
      assert Own(w.st.pending) + ToSet(w.st.parks) + ToSet([]) == Own(w.st.pending) + ToSet(w.st.parks);
      AfterDirectiveSafe(d, children);
    }
  }

  /** Whatever the directive and the sub-runs do, a state left by a run that did not fail either
      stays resumable or enters the provider loop with nothing owed. */
  lemma ResumeSafe(w: Work, directive: Option<seq<Decision>>, children: map<CallId, Child>)
    requires w.buf == w.st.messages && Resumable(w.st) && !w.st.status.Failed?
    ensures var r := ResumeRun(w, directive, children);
            (r.Return? ==> r.w.buf == r.w.st.messages && Resumable(r.w.st) && !r.w.st.status.Failed?) &&
            (r.Enter? ==> r.w.buf == r.w.st.messages && Presentable(r.w.st) && Fits(r.w.st))
  {
    ResumeOwing(w, directive, children);
    ResumeFollows(w, directive, children);
    FollowsDispatchable(w.st, ResumeRun(w, directive, children).w.st);
  }
}
