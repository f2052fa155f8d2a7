/** Chat transcripts: the tool-call pairing rule that providers enforce, the two-set pass that
    decides it, the repair applied to a handoff seed, and the stricter grouped form the agent loop
    keeps (every assistant message is answered by the tool messages right behind it). */
module Transcript {

  type CallId = string

  datatype Message =
    | System(text: string)
    | User(text: string)
    | Assistant(text: string, calls: seq<CallId>)
    | Tool(callId: CallId)

  function Announces(m: Message): seq<CallId> {
    if m.Assistant? then m.calls else []
  }

  // ---------------------------------------------------------------- the rule, declaratively

  ghost predicate AnnouncedBefore(ms: seq<Message>, n: nat, id: CallId)
    requires n <= |ms|
  {
    exists i | 0 <= i < n :: id in Announces(ms[i])
  }

  ghost predicate ResolvedSomewhere(ms: seq<Message>, id: CallId) {
    Tool(id) in ms
  }

  /** Every tool message refers to a call announced by an earlier message. */
  ghost predicate NoOrphan(ms: seq<Message>) {
    forall j | 0 <= j < |ms| :: ms[j].Tool? ==> AnnouncedBefore(ms, j, ms[j].callId)
  }

  /** What the two-set pass decides: no orphan, and every announced id is resolved somewhere. */
  ghost predicate Accepted(ms: seq<Message>) {
    NoOrphan(ms) &&
    forall i, id | 0 <= i < |ms| && id in Announces(ms[i]) :: ResolvedSomewhere(ms, id)
  }

  ghost predicate ResolvedAfter(ms: seq<Message>, i: nat, id: CallId) {
    exists j | i < j < |ms| :: ms[j] == Tool(id)
  }

  /** What the documentation promises: every announcement is resolved by a LATER tool message. */
  ghost predicate Documented(ms: seq<Message>) {
    NoOrphan(ms) &&
    forall i, id | 0 <= i < |ms| && id in Announces(ms[i]) :: ResolvedAfter(ms, i, id)
  }

  /** An id is reopened at `i` when message `i` announces it behind its last tool message. */
  ghost predicate Reopened(ms: seq<Message>, i: nat, id: CallId)
    requires i < |ms|
  {
    id in Announces(ms[i]) && Tool(id) in ms[..i] && Tool(id) !in ms[i..]
  }

  /** The documented rule is the decided rule plus: no id is reopened. */
  lemma DocumentedExactly(ms: seq<Message>)
    ensures Documented(ms) <==>
            Accepted(ms) && forall i, id | 0 <= i < |ms| && id in Announces(ms[i]) :: !Reopened(ms, i, id)
  {
    if Documented(ms) {
      forall i, id | 0 <= i < |ms| && id in Announces(ms[i])
        ensures ResolvedSomewhere(ms, id) && !Reopened(ms, i, id)
      {
        assert ResolvedAfter(ms, i, id);
        var j :| i < j < |ms| && ms[j] == Tool(id);
        assert ms[i..][j - i] == Tool(id);
      }
    }
    if Accepted(ms) && forall i, id | 0 <= i < |ms| && id in Announces(ms[i]) :: !Reopened(ms, i, id) {
      forall i, id | 0 <= i < |ms| && id in Announces(ms[i])
        ensures ResolvedAfter(ms, i, id)
      {
        assert ms == ms[..i] + ms[i..];
        assert !Reopened(ms, i, id) && ResolvedSomewhere(ms, id);
        var j :| 0 <= j < |ms[i..]| && ms[i..][j] == Tool(id);
        assert ms[i + j] == Tool(id) && j != 0;
      }
    }
  }

  /** The two rules differ: an id announced again after its result is accepted although the second
      announcement is never answered. */
  lemma ReopenedIdSlipsThrough()
    ensures var ms := [Assistant("", ["x"]), Tool("x"), Assistant("", ["x"])];
            Accepted(ms) && !Documented(ms)
  {
    var ms := [Assistant("", ["x"]), Tool("x"), Assistant("", ["x"])];
    assert "x" in Announces(ms[0]) && AnnouncedBefore(ms, 1, "x");
    assert ms[1] == Tool("x");
    assert "x" in Announces(ms[2]) && !ResolvedAfter(ms, 2, "x");
  }

  // ---------------------------------------------------------------- the two-set pass

  datatype Verdict =
    | Accept
    | OrphanAt(index: nat, id: CallId)
    | Dangling(ids: seq<CallId>)

  ghost predicate Distinct<T>(s: seq<T>) {
    forall i, j | 0 <= i < j < |s| :: s[i] != s[j]
  }

  /** `Set.add` on an insertion-ordered set. */
  function AddId(s: seq<CallId>, id: CallId): (r: seq<CallId>)
    ensures forall x :: x in r <==> x in s || x == id
    ensures Distinct(s) ==> Distinct(r)
  {
    if id in s then s else s + [id]
  }

  method AssertWellFormedTranscript(ms: seq<Message>) returns (v: Verdict)
    ensures v.Accept? <==> Accepted(ms)
    ensures v.OrphanAt? ==>
              v.index < |ms| && ms[v.index] == Tool(v.id) && NoOrphan(ms[..v.index]) &&
              !AnnouncedBefore(ms, v.index, v.id)
    ensures v.Dangling? ==>
              NoOrphan(ms) && v.ids != [] && Distinct(v.ids) &&
              forall id :: id in v.ids <==> AnnouncedBefore(ms, |ms|, id) && !ResolvedSomewhere(ms, id)
  {
    var announced: seq<CallId> := [];
    var resolved: set<CallId> := {};
    for n := 0 to |ms|
      invariant Distinct(announced)
      invariant forall id :: id in announced <==> AnnouncedBefore(ms, n, id)
      invariant forall id :: id in resolved <==> Tool(id) in ms[..n]
      invariant forall j | 0 <= j < n :: ms[j].Tool? ==> AnnouncedBefore(ms, j, ms[j].callId)
    {
      assert ms[..n + 1] == ms[..n] + [ms[n]];
      var m := ms[n];
      if m.Assistant? {
        ghost var before := announced;
        for c := 0 to |m.calls|
          invariant Distinct(announced)
          invariant forall id :: id in announced <==> id in before || id in m.calls[..c]
        {
          announced := AddId(announced, m.calls[c]);
        }
        assert m.calls[..|m.calls|] == m.calls;
      } else if m.Tool? {
        if m.callId !in announced {
          forall j | 0 <= j < n && ms[j].Tool?
            ensures AnnouncedBefore(ms[..n], j, ms[j].callId)
          {
            var i :| 0 <= i < j && ms[j].callId in Announces(ms[i]);
            assert ms[..n][i] == ms[i];
          }
          return OrphanAt(n, m.callId);
        }
        resolved := resolved + {m.callId};
      }
    }
    assert ms[..|ms|] == ms;
    assert NoOrphan(ms);
    var dangling: seq<CallId> := [];
    for c := 0 to |announced|
      invariant Distinct(dangling)
      invariant forall id :: id in dangling <==> id in announced[..c] && id !in resolved
    {
      if announced[c] !in resolved {
        dangling := dangling + [announced[c]];
      }
    }
    assert announced[..|announced|] == announced;
    if dangling != [] {
      assert dangling[0] in announced && !ResolvedSomewhere(ms, dangling[0]);
      v := Dangling(dangling);
    } else {
      forall i, id | 0 <= i < |ms| && id in Announces(ms[i])
        ensures ResolvedSomewhere(ms, id)
      {
        assert AnnouncedBefore(ms, |ms|, id);
        assert id in announced && id !in dangling;
      }
      v := Accept;
    }
  }

  // ---------------------------------------------------------------- grouped transcripts

  /** Scanner state: the ids of the current tool group and those still unanswered in it. */
  datatype Scan = Broken | Group(open: set<CallId>, group: set<CallId>)

  function ToSet(ids: seq<CallId>): set<CallId> {
    set id | id in ids
  }

  function ScanStep(s: Scan, m: Message): Scan {
    match s
    case Broken => Broken
    case Group(open, group) =>
      match m
      case System(_) => if open == {} then Group({}, {}) else Broken
      case User(_) => if open == {} then Group({}, {}) else Broken
      case Assistant(_, calls) => if open == {} then Group(ToSet(calls), ToSet(calls)) else Broken
      case Tool(id) => if id in group then Group(open - {id}, group) else Broken
  }

  function ScanFrom(s: Scan, ms: seq<Message>): Scan {
    if ms == [] then s else ScanStep(ScanFrom(s, ms[..|ms| - 1]), ms[|ms| - 1])
  }

  function ScanAll(ms: seq<Message>): Scan {
    ScanFrom(Group({}, {}), ms)
  }

  /** Every assistant message is answered, call by call, by the tool messages right behind it. */
  predicate Grouped(ms: seq<Message>) {
    var s := ScanAll(ms);
    s.Group? && s.open == {}
  }

  lemma {:induction false} ScanFromConcat(s: Scan, a: seq<Message>, b: seq<Message>)
    ensures ScanFrom(s, a + b) == ScanFrom(ScanFrom(s, a), b)
    decreases |b|
  {
    if b == [] {
      assert a + b == a;
    } else {
      assert (a + b)[..|a + b| - 1] == a + b[..|b| - 1];
      ScanFromConcat(s, a, b[..|b| - 1]);
    }
  }

  lemma ScanAppend(a: seq<Message>, m: Message)
    ensures ScanAll(a + [m]) == ScanStep(ScanAll(a), m)
  {
    assert (a + [m])[..|a|] == a;
  }

  /** Grouping is stronger than the documented rule, hence than the decided one. */
  lemma GroupedIsDocumented(ms: seq<Message>)
    requires Grouped(ms)
    ensures Documented(ms) && Accepted(ms)
  {
    ScanNoOrphan(ms);
    ScanResolves(ms);
    forall i, id | 0 <= i < |ms| && id in Announces(ms[i])
      ensures ResolvedSomewhere(ms, id)
    {
      assert ResolvedAfter(ms, i, id);
    }
  }

  lemma AnnouncedGrows(ms: seq<Message>, m: Message, id: CallId)
    ensures Announced(ms + [m], id) <==> Announced(ms, id) || id in Announces(m)
  {
    var all := ms + [m];
    if Announced(ms, id) {
      var i :| 0 <= i < |ms| && id in Announces(ms[i]);
      assert all[i] == ms[i];
    }
    if id in Announces(m) {
      assert all[|ms|] == m;
    }
  }

  /** The scanner's group consists of announced ids. */
  lemma {:induction false} ScanAnnounced(ms: seq<Message>)
    requires ScanAll(ms).Group?
    ensures ScanAll(ms).open <= ScanAll(ms).group
    ensures forall id | id in ScanAll(ms).group :: Announced(ms, id)
  {
    if ms != [] {
      var n := |ms| - 1;
      ScanAnnounced(ms[..n]);
      assert ms == ms[..n] + [ms[n]];
      forall id | id in ScanAll(ms).group
        ensures Announced(ms, id)
      {
        AnnouncedGrows(ms[..n], ms[n], id);
      }
    }
  }

  lemma {:induction false} ScanNoOrphan(ms: seq<Message>)
    requires ScanAll(ms).Group?
    ensures NoOrphan(ms)
  {
    if ms != [] {
      var n := |ms| - 1;
      ScanNoOrphan(ms[..n]);
      ScanAnnounced(ms[..n]);
      AppendAnnounced(ms[..n], ms[n]);
      assert ms == ms[..n] + [ms[n]];
    }
  }

  lemma {:induction false} ScanResolves(ms: seq<Message>)
    requires ScanAll(ms).Group?
    ensures forall i, id | 0 <= i < |ms| && id in Announces(ms[i]) :: id in ScanAll(ms).open || ResolvedAfter(ms, i, id)
  {
    if ms != [] {
      var n := |ms| - 1;
      var front := ms[..n];
      ScanResolves(front);
      assert forall j | 0 <= j < n :: front[j] == ms[j];
      forall i, id | 0 <= i < |ms| && id in Announces(ms[i]) && id !in ScanAll(ms).open
        ensures ResolvedAfter(ms, i, id)
      {
        if i < n {
          if ResolvedAfter(front, i, id) {
            var j :| i < j < n && front[j] == Tool(id);
            assert ms[j] == Tool(id);
          } else {
            assert id in ScanAll(front).open;
            assert ms[n] == Tool(id);
          }
        }
      }
    }
  }

  /** For a transcript the scanner follows, its open calls say exactly which rule it breaks. */
  lemma ScanVerdict(ms: seq<Message>)
    requires ScanAll(ms).Group?
    ensures Documented(ms) <==> ScanAll(ms).open == {}
    ensures Accepted(ms) <==> forall id | id in ScanAll(ms).open :: Tool(id) in ms
  {
    OpenMeansUndocumented(ms);
    OpenDecidesAcceptance(ms);
  }

  lemma OpenMeansUndocumented(ms: seq<Message>)
    requires ScanAll(ms).Group?
    ensures Documented(ms) <==> ScanAll(ms).open == {}
  {
    if ScanAll(ms).open == {} {
      GroupedIsDocumented(ms);
    } else {
      OpenUnanswered(ms);
      var id :| id in ScanAll(ms).open;
      var i :| 0 <= i < |ms| && id in Announces(ms[i]) && !ResolvedAfter(ms, i, id);
    }
  }

  lemma OpenDecidesAcceptance(ms: seq<Message>)
    requires ScanAll(ms).Group?
    ensures Accepted(ms) <==> forall id | id in ScanAll(ms).open :: ResolvedSomewhere(ms, id)
  {
    AcceptedByIds(ms);
    ScanNoOrphan(ms);
    ScanAnnounced(ms);
    forall id | Announced(ms, id) && id !in ScanAll(ms).open
      ensures ResolvedSomewhere(ms, id)
    {
      ScanResolves(ms);
      var i :| 0 <= i < |ms| && id in Announces(ms[i]);
      assert ResolvedAfter(ms, i, id);
    }
  }

  /** An open call has an announcement that no later message answers. */
  lemma {:induction false} OpenUnanswered(ms: seq<Message>)
    requires ScanAll(ms).Group?
    ensures forall id | id in ScanAll(ms).open ::
              exists i | 0 <= i < |ms| :: id in Announces(ms[i]) && !ResolvedAfter(ms, i, id)
  {
    if ms != [] {
      var n := |ms| - 1;
      OpenUnanswered(ms[..n]);
      forall id | id in ScanAll(ms).open
        ensures exists i | 0 <= i < |ms| :: id in Announces(ms[i]) && !ResolvedAfter(ms, i, id)
      {
        if ms[n].Assistant? {
          assert id in Announces(ms[n]) && !ResolvedAfter(ms, n, id);
        } else {
          var i :| 0 <= i < n && id in Announces(ms[..n][i]) && !ResolvedAfter(ms[..n], i, id);
          assert forall j | i < j < n :: ms[..n][j] == ms[j];
          assert id in Announces(ms[i]) && !ResolvedAfter(ms, i, id);
        }
      }
    }
  }

  function ToolsOf(ids: seq<CallId>): seq<Message> {
    seq(|ids|, i requires 0 <= i < |ids| => Tool(ids[i]))
  }

  /** Answering `ids` makes the transcript acceptable: every one of them was announced, and nothing
      else announced lacks an answer. */
  ghost predicate Completes(ms: seq<Message>, ids: set<CallId>) {
    && NoOrphan(ms)
    && (forall id | id in ids :: Announced(ms, id))
    && (forall id | Announced(ms, id) :: ResolvedSomewhere(ms, id) || id in ids)
  }

  lemma OrphanGrows(ms: seq<Message>, m: Message)
    ensures NoOrphan(ms + [m]) <==> NoOrphan(ms) && (m.Tool? ==> Announced(ms, m.callId))
  {
    var all := ms + [m];
    forall k: nat, id | k <= |ms|
      ensures AnnouncedBefore(all, k, id) <==> AnnouncedBefore(ms, k, id)
    {
      assert forall i | 0 <= i < k :: all[i] == ms[i];
    }
    assert forall j | 0 <= j < |ms| :: all[j] == ms[j];
    assert all[|ms|] == m;
  }

  /** Tool messages announce nothing, and orphan nothing exactly when each was announced. */
  lemma {:induction false} ToolsKeepOrphans(ms: seq<Message>, ids: seq<CallId>)
    ensures forall id :: Announced(ms + ToolsOf(ids), id) <==> Announced(ms, id)
    ensures NoOrphan(ms + ToolsOf(ids)) <==> NoOrphan(ms) && forall id | id in ids :: Announced(ms, id)
  {
    if ids == [] {
      assert ms + ToolsOf(ids) == ms;
    } else {
      var n := |ids| - 1;
      var front := ms + ToolsOf(ids[..n]);
      ToolsKeepOrphans(ms, ids[..n]);
      assert ms + ToolsOf(ids) == front + [Tool(ids[n])];
      assert ids == ids[..n] + [ids[n]];
      OrphanGrows(front, Tool(ids[n]));
      forall id
        ensures Announced(front + [Tool(ids[n])], id) <==> Announced(front, id)
      {
        AnnouncedGrows(front, Tool(ids[n]), id);
      }
    }
  }

  /** Appending tool messages yields an acceptable transcript exactly when they complete it. */
  lemma ToolsAccepted(ms: seq<Message>, ids: seq<CallId>)
    ensures Accepted(ms + ToolsOf(ids)) <==> Completes(ms, ToSet(ids))
  {
    var out := ms + ToolsOf(ids);
    ToolsKeepOrphans(ms, ids);
    forall id
      ensures ResolvedSomewhere(out, id) <==> ResolvedSomewhere(ms, id) || id in ids
    {
      if id in ids {
        var k :| 0 <= k < |ids| && ids[k] == id;
        assert out[|ms| + k] == Tool(id);
      }
    }
    AcceptedByIds(out);
  }

  /** The decided rule, read id by id. */
  lemma AcceptedByIds(ms: seq<Message>)
    ensures Accepted(ms) <==> NoOrphan(ms) && forall id | Announced(ms, id) :: ResolvedSomewhere(ms, id)
  {
    if Accepted(ms) {
      forall id | Announced(ms, id)
        ensures ResolvedSomewhere(ms, id)
      {
        var i :| 0 <= i < |ms| && id in Announces(ms[i]);
      }
    }
    if forall id | Announced(ms, id) :: ResolvedSomewhere(ms, id) {
      forall i, id | 0 <= i < |ms| && id in Announces(ms[i])
        ensures ResolvedSomewhere(ms, id)
      {
        assert Announced(ms, id);
      }
    }
  }

  /** Cutting a scannable transcript in front of a non-tool message loses no pairing. */
  lemma {:induction false} CutAtNonTool(ms: seq<Message>, k: nat)
    requires ScanAll(ms).Group? && k < |ms| && !ms[k].Tool?
    ensures ScanAll(ms[..k]).Group? && ScanAll(ms[..k]).open == {}
    ensures ScanAll(ms[k..]) == ScanAll(ms)
    decreases |ms|
  {
    var n := |ms| - 1;
    assert ms == ms[..k] + ms[k..];
    ScanFromConcat(Group({}, {}), ms[..k], ms[k..]);
    if k == n {
      assert ms[k..] == [ms[n]];
      assert ScanAll([ms[n]]) == ScanStep(ScanAll([]), ms[n]);
    } else {
      assert ms[..n][..k] == ms[..k];
      assert ms[k..][..n - k] == ms[..n][k..];
      CutAtNonTool(ms[..n], k);
    }
  }

  lemma GroupedConcat(a: seq<Message>, b: seq<Message>)
    requires Grouped(a) && Grouped(b) && (b != [] ==> !b[0].Tool?)
    ensures Grouped(a + b)
  {
    ScanFromConcat(Group({}, {}), a, b);
    if b != [] {
      FirstResets(ScanAll(a), Group({}, {}), b);
    }
  }

  /** A non-tool first message makes the scan forget the group it started from. */
  lemma {:induction false} FirstResets(s: Scan, t: Scan, b: seq<Message>)
    requires b != [] && !b[0].Tool?
    requires s.Group? && t.Group? && s.open == {} && t.open == {}
    ensures ScanFrom(s, b) == ScanFrom(t, b)
  {
    if |b| == 1 {
      assert b[..0] == [];
    } else {
      FirstResets(s, t, b[..|b| - 1]);
    }
  }

  lemma {:induction false} GroupedStartsClean(ms: seq<Message>)
    requires ScanAll(ms).Group? && ms != []
    ensures !ms[0].Tool?
  {
    if |ms| == 1 {
      assert ScanAll(ms) == ScanStep(ScanAll([]), ms[0]) by { assert ms[..0] == []; }
    } else {
      GroupedStartsClean(ms[..|ms| - 1]);
    }
  }

  // ---------------------------------------------------------------- handoff seeds

  ghost predicate Announced(ms: seq<Message>, id: CallId) {
    AnnouncedBefore(ms, |ms|, id)
  }

  /** Ids answered by a tool message behind an announcement. */
  ghost function ResolvedIds(ms: seq<Message>): set<CallId> {
    set j | 0 <= j < |ms| && ms[j].Tool? && AnnouncedBefore(ms, j, ms[j].callId) :: ms[j].callId
  }

  function KeepCalls(calls: seq<CallId>, resolved: set<CallId>): (r: seq<CallId>)
    ensures forall id :: id in r <==> id in calls && id in resolved
    ensures |r| <= |calls|
    ensures |r| == |calls| <==> r == calls
    ensures r == calls <==> forall id | id in calls :: id in resolved
  {
    if calls == [] then []
    else
      var rest := KeepCalls(calls[1..], resolved);
      assert calls == [calls[0]] + calls[1..];
      if calls[0] in resolved then [calls[0]] + rest else rest
  }

  /** What the second pass leaves of one message, given the ids the kept messages announced. */
  function Salvage(m: Message, resolved: set<CallId>, kept: set<CallId>): seq<Message> {
    match m
    case Tool(id) => if id in kept then [m] else []
    case Assistant(text, calls) =>
      var k := KeepCalls(calls, resolved);
      if k == calls then [m]
      else if k == [] && text == "" then []
      else [Assistant(text, k)]
    case _ => [m]
  }

  /** What the second pass has announced once it is past `ms`. */
  ghost function KeptIds(ms: seq<Message>, resolved: set<CallId>): set<CallId> {
    set id | id in resolved && Announced(ms, id)
  }

  ghost function SalvageAll(ms: seq<Message>, resolved: set<CallId>): seq<Message> {
    if ms == [] then []
    else
      var front := ms[..|ms| - 1];
      SalvageAll(front, resolved) + Salvage(ms[|ms| - 1], resolved, KeptIds(front, resolved))
  }

  lemma KeptSnoc(ms: seq<Message>, k: nat, resolved: set<CallId>)
    requires k < |ms|
    ensures KeptIds(ms[..k + 1], resolved) == KeptIds(ms[..k], resolved) + ToSet(KeepCalls(Announces(ms[k]), resolved))
  {
    assert ms[..k + 1] == ms[..k] + [ms[k]];
    forall id
      ensures Announced(ms[..k + 1], id) <==> Announced(ms[..k], id) || id in Announces(ms[k])
    {
      AnnouncedGrows(ms[..k], ms[k], id);
    }
  }

  lemma SalvageSnoc(ms: seq<Message>, k: nat, resolved: set<CallId>)
    requires k < |ms|
    ensures SalvageAll(ms[..k + 1], resolved) ==
            SalvageAll(ms[..k], resolved) + Salvage(ms[k], resolved, KeptIds(ms[..k], resolved))
  {
    assert ms[..k + 1][..k] == ms[..k];
  }

  /** First pass of the repair. */
  method CollectResolved(ms: seq<Message>) returns (resolved: set<CallId>)
    ensures resolved == ResolvedIds(ms)
  {
    var announcedSoFar: set<CallId> := {};
    resolved := {};
    for n := 0 to |ms|
      invariant forall id :: id in announcedSoFar <==> AnnouncedBefore(ms, n, id)
      invariant resolved == set j | 0 <= j < n && ms[j].Tool? && AnnouncedBefore(ms, j, ms[j].callId) :: ms[j].callId
    {
      var m := ms[n];
      if m.Assistant? {
        announcedSoFar := announcedSoFar + ToSet(m.calls);
      } else if m.Tool? && m.callId in announcedSoFar {
        resolved := resolved + {m.callId};
      }
    }
  }

  /** The repair of a handoff seed always yields an acceptable transcript, and it changes exactly
      the unacceptable ones. */
  method SanitizeHandoffSeed(ms: seq<Message>) returns (out: seq<Message>)
    ensures out == SalvageAll(ms, ResolvedIds(ms))
    ensures Accepted(out)
    ensures out == ms <==> Accepted(ms)
  {
    var resolved := CollectResolved(ms);
    out := [];
    var keptAnnounced: set<CallId> := {};
    for n := 0 to |ms|
      invariant keptAnnounced == KeptIds(ms[..n], resolved)
      invariant out == SalvageAll(ms[..n], resolved)
    {
      var m := ms[n];
      KeptSnoc(ms, n, resolved);
      SalvageSnoc(ms, n, resolved);
      if m.Tool? {
        if m.callId in keptAnnounced {
          out := out + [m];
        }
      } else if m.Assistant? {
        var kept := KeepCalls(m.calls, resolved);
        keptAnnounced := keptAnnounced + ToSet(kept);
        if |kept| == |m.calls| {
          out := out + [m];
        } else if kept == [] && m.text == "" {
        } else {
          out := out + [Assistant(m.text, kept)];
        }
      } else {
        out := out + [m];
      }
    }
    assert ms[..|ms|] == ms;
    SalvageAccepted(ms);
    SalvageFixpoint(ms);
  }

  lemma {:induction false} SalvageShape(ms: seq<Message>, resolved: set<CallId>)
    ensures NoOrphan(SalvageAll(ms, resolved))
    ensures forall id :: Announced(SalvageAll(ms, resolved), id) <==> id in KeptIds(ms, resolved)
  {
    if ms != [] {
      var n := |ms| - 1;
      SalvageShape(ms[..n], resolved);
      SalvageAppends(SalvageAll(ms[..n], resolved), KeptIds(ms[..n], resolved), ms[n], resolved);
      KeptSnoc(ms, n, resolved);
      assert ms[..n + 1] == ms;
    }
  }

  lemma SalvageAppends(kept: seq<Message>, ids: set<CallId>, m: Message, resolved: set<CallId>)
    requires NoOrphan(kept) && forall id :: Announced(kept, id) <==> id in ids
    ensures var out := kept + Salvage(m, resolved, ids);
            NoOrphan(out) && forall id :: Announced(out, id) <==> id in ids || id in KeepCalls(Announces(m), resolved)
  {
    var add := Salvage(m, resolved, ids);
    if add != [] {
      AppendAnnounced(kept, add[0]);
    } else {
      assert kept + add == kept;
    }
  }

  lemma AppendAnnounced(ms: seq<Message>, m: Message)
    requires NoOrphan(ms) && (m.Tool? ==> Announced(ms, m.callId))
    ensures NoOrphan(ms + [m])
    ensures forall id :: Announced(ms + [m], id) <==> Announced(ms, id) || id in Announces(m)
  {
    OrphanGrows(ms, m);
    forall id
      ensures Announced(ms + [m], id) <==> Announced(ms, id) || id in Announces(m)
    {
      AnnouncedGrows(ms, m, id);
    }
  }

  lemma {:induction false} KeptToolStays(ms: seq<Message>, j: nat, resolved: set<CallId>)
    requires j < |ms| && ms[j].Tool? && ms[j].callId in KeptIds(ms[..j], resolved)
    ensures ms[j] in SalvageAll(ms, resolved)
  {
    var n := |ms| - 1;
    if j < n {
      assert ms[..n][..j] == ms[..j];
      KeptToolStays(ms[..n], j, resolved);
    }
  }

  lemma SalvageAccepted(ms: seq<Message>)
    ensures Accepted(SalvageAll(ms, ResolvedIds(ms)))
  {
    var resolved := ResolvedIds(ms);
    var out := SalvageAll(ms, resolved);
    SalvageShape(ms, resolved);
    forall i, id | 0 <= i < |out| && id in Announces(out[i])
      ensures ResolvedSomewhere(out, id)
    {
      assert Announced(out, id) && id in resolved;
      var j :| 0 <= j < |ms| && ms[j] == Tool(id) && AnnouncedBefore(ms, j, id);
      var k :| 0 <= k < j && id in Announces(ms[k]);
      assert ms[..j][k] == ms[k] && Announced(ms[..j], id);
      KeptToolStays(ms, j, resolved);
    }
  }

  lemma SalvageFixpoint(ms: seq<Message>)
    ensures SalvageAll(ms, ResolvedIds(ms)) == ms <==> Accepted(ms)
  {
    SalvageAccepted(ms);
    if Accepted(ms) {
      forall i, id | 0 <= i < |ms| && id in Announces(ms[i])
        ensures id in ResolvedIds(ms)
      {
        assert ResolvedSomewhere(ms, id);
        var j :| 0 <= j < |ms| && ms[j] == Tool(id);
        assert AnnouncedBefore(ms, j, ms[j].callId);
      }
      SalvageIdentity(ms, ResolvedIds(ms));
    }
  }

  ghost predicate AllResolved(ms: seq<Message>, resolved: set<CallId>) {
    forall i, id | 0 <= i < |ms| && id in Announces(ms[i]) :: id in resolved
  }

  lemma FrontKeeps(ms: seq<Message>, resolved: set<CallId>)
    requires ms != [] && NoOrphan(ms) && AllResolved(ms, resolved)
    ensures var front, m := ms[..|ms| - 1], ms[|ms| - 1];
            NoOrphan(front) && AllResolved(front, resolved) && (m.Tool? ==> Announced(front, m.callId))
  {
    var front := ms[..|ms| - 1];
    forall j: nat, id | j <= |front| && AnnouncedBefore(ms, j, id)
      ensures AnnouncedBefore(front, j, id)
    {
      var i :| 0 <= i < j && id in Announces(ms[i]);
      assert front[i] == ms[i];
    }
  }

  lemma {:induction false} SalvageIdentity(ms: seq<Message>, resolved: set<CallId>)
    requires NoOrphan(ms) && AllResolved(ms, resolved)
    ensures SalvageAll(ms, resolved) == ms
  {
    if ms != [] {
      var front, m := ms[..|ms| - 1], ms[|ms| - 1];
      assert SalvageAll(front, resolved) == front by {
        FrontKeeps(ms, resolved);
        SalvageIdentity(front, resolved);
      }
      assert Salvage(m, resolved, KeptIds(front, resolved)) == [m] by { LastKept(ms, resolved); }
      assert SalvageAll(ms, resolved) == front + [m] == ms;
    }
  }

  lemma LastKept(ms: seq<Message>, resolved: set<CallId>)
    requires ms != [] && NoOrphan(ms) && AllResolved(ms, resolved)
    requires SalvageAll(ms[..|ms| - 1], resolved) == ms[..|ms| - 1]
    ensures Salvage(ms[|ms| - 1], resolved, KeptIds(ms[..|ms| - 1], resolved)) == [ms[|ms| - 1]]
  {
    var front, m := ms[..|ms| - 1], ms[|ms| - 1];
    if m.Tool? {
      FrontKeeps(ms, resolved);
      SalvageShape(front, resolved);
      assert Announced(SalvageAll(front, resolved), m.callId);
    }
    KeptWhole(m, resolved, KeptIds(front, resolved));
  }

  lemma KeptWhole(m: Message, resolved: set<CallId>, kept: set<CallId>)
    requires forall id | id in Announces(m) :: id in resolved
    requires m.Tool? ==> m.callId in kept
    ensures Salvage(m, resolved, kept) == [m]
  {
  }
}
