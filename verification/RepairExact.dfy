/** Which messages of a handoff seed survive its repair, and as what. */
module RepairExact {
  import opened Transcript

  /** Some tool message answers the id behind an announcement of it. */
  ghost predicate Answerable(ms: seq<Message>, id: CallId) {
    exists j | 0 <= j < |ms| :: ms[j] == Tool(id) && AnnouncedBefore(ms, j, id)
  }

  /** A result survives if it is no orphan; an assistant message unless it has no text and its calls, of
      which there are some, are all unanswered; any other message always. */
  ghost predicate Survives(ms: seq<Message>, j: nat)
    requires j < |ms|
  {
    match ms[j]
    case Tool(id) => AnnouncedBefore(ms, j, id)
    case Assistant(text, calls) => text != "" || calls == [] || exists id | id in calls :: Answerable(ms, id)
    case _ => true
  }

  /** Increasing positions of exactly the calls that are answered. */
  ghost predicate AnsweredAt(ms: seq<Message>, calls: seq<CallId>, qs: seq<nat>) {
    && Ascends(qs)
    && (forall q: nat :: q in qs <==> q < |calls| && Answerable(ms, calls[q]))
  }

  /** An assistant message keeps its text and, in order, the calls that are answered; others are kept. */
  ghost predicate KeptAs(ms: seq<Message>, m: Message, out: Message) {
    match m
    case Assistant(text, calls) =>
      out.Assistant? && out.text == text &&
      exists qs: seq<nat> ::
        AnsweredAt(ms, calls, qs) && |out.calls| == |qs| &&
        forall i | 0 <= i < |qs| :: qs[i] < |calls| && out.calls[i] == calls[qs[i]]
    case _ => out == m
  }

  lemma ResolvedIsAnswerable(ms: seq<Message>, id: CallId)
    ensures id in ResolvedIds(ms) <==> Answerable(ms, id)
  {
    if id in ResolvedIds(ms) {
      var j :| 0 <= j < |ms| && ms[j].Tool? && AnnouncedBefore(ms, j, ms[j].callId) && ms[j].callId == id;
      assert ms[j] == Tool(id);
    }
    if Answerable(ms, id) {
      var j :| 0 <= j < |ms| && ms[j] == Tool(id) && AnnouncedBefore(ms, j, id);
      assert ms[j].callId == id;
    }
  }

  ghost predicate Ascends(qs: seq<nat>) {
    forall i, j | 0 <= i < j < |qs| :: qs[i] < qs[j]
  }

  /** The positions pick `kept` from the calls, and are those of the resolved ones. */
  ghost predicate Picks(calls: seq<CallId>, resolved: set<CallId>, qs: seq<nat>, kept: seq<CallId>) {
    && (forall q: nat :: q in qs <==> q < |calls| && calls[q] in resolved)
    && |kept| == |qs| && forall i | 0 <= i < |qs| :: qs[i] < |calls| && kept[i] == calls[qs[i]]
  }

  lemma Shift(qs: seq<nat>) returns (ps: seq<nat>)
    requires Ascends(qs)
    ensures Ascends(ps) && |ps| == |qs| && (forall i | 0 <= i < |qs| :: ps[i] == qs[i] + 1)
    ensures forall q: nat :: q in ps <==> q > 0 && q - 1 in qs
  {
    ps := seq(|qs|, i requires 0 <= i < |qs| => qs[i] + 1);
    forall q: nat | q > 0 && q - 1 in qs
      ensures q in ps
    {
      var i :| 0 <= i < |qs| && qs[i] == q - 1;
      assert ps[i] == q;
    }
  }

  lemma ShiftPicks(calls: seq<CallId>, resolved: set<CallId>, qs: seq<nat>, ps: seq<nat>, kept: seq<CallId>)
    requires calls != [] && Picks(calls[1..], resolved, qs, kept) && |ps| == |qs|
    requires forall i | 0 <= i < |qs| :: ps[i] == qs[i] + 1
    requires forall q: nat :: q in ps <==> q > 0 && q - 1 in qs
    ensures forall q: nat :: q in ps <==> 0 < q < |calls| && calls[q] in resolved
    ensures forall i | 0 <= i < |ps| :: ps[i] < |calls| && kept[i] == calls[ps[i]]
  {
    forall q: nat
      ensures q in ps <==> 0 < q < |calls| && calls[q] in resolved
    {
      if 0 < q < |calls| {
        assert calls[1..][q - 1] == calls[q];
      }
    }
  }

  lemma {:induction false} KeepCallsAt(calls: seq<CallId>, resolved: set<CallId>) returns (qs: seq<nat>)
    ensures Ascends(qs) && Picks(calls, resolved, qs, KeepCalls(calls, resolved))
  {
    qs := [];
    if calls != [] {
      var rest := KeepCallsAt(calls[1..], resolved);
      var ps := Shift(rest);
      var kept := KeepCalls(calls[1..], resolved);
      ShiftPicks(calls, resolved, rest, ps, kept);
      ConsPicks(calls, resolved, ps, kept);
      KeepCallsCons(calls, resolved);
      qs := if calls[0] in resolved then [0] + ps else ps;
    }
  }

  lemma KeepCallsCons(calls: seq<CallId>, resolved: set<CallId>)
    requires calls != []
    ensures KeepCalls(calls, resolved) ==
            (if calls[0] in resolved then [calls[0]] else []) + KeepCalls(calls[1..], resolved)
  {
  }

  lemma ConsPicks(calls: seq<CallId>, resolved: set<CallId>, ps: seq<nat>, kept: seq<CallId>)
    requires calls != [] && Ascends(ps) && |kept| == |ps|
    requires forall q: nat :: q in ps <==> 0 < q < |calls| && calls[q] in resolved
    requires forall i | 0 <= i < |ps| :: ps[i] < |calls| && kept[i] == calls[ps[i]]
    ensures var first := calls[0] in resolved;
            var qs := if first then [0] + ps else ps;
            Ascends(qs) && Picks(calls, resolved, qs, if first then [calls[0]] + kept else kept)
  {
    if calls[0] in resolved {
      var qs := [0] + ps;
      assert forall i | 0 <= i < |ps| :: ps[i] in ps;
      assert forall q: nat :: q in qs <==> q == 0 || q in ps;
    }
  }

  lemma AnswersKept(ms: seq<Message>, calls: seq<CallId>, text: string)
    ensures KeptAs(ms, Assistant(text, calls), Assistant(text, KeepCalls(calls, ResolvedIds(ms))))
  {
    var qs := KeepCallsAt(calls, ResolvedIds(ms));
    forall q: nat
      ensures q in qs <==> q < |calls| && Answerable(ms, calls[q])
    {
      if q < |calls| {
        ResolvedIsAnswerable(ms, calls[q]);
      }
    }
    assert AnsweredAt(ms, calls, qs);
  }

  lemma PrefixAnnounces(ms: seq<Message>, j: nat, id: CallId)
    requires j <= |ms|
    ensures Announced(ms[..j], id) <==> AnnouncedBefore(ms, j, id)
  {
    assert forall i | 0 <= i < j :: ms[..j][i] == ms[i];
  }

  /** One message of the repair. */
  lemma SalvageOne(ms: seq<Message>, j: nat)
    requires j < |ms|
    ensures var out := Salvage(ms[j], ResolvedIds(ms), KeptIds(ms[..j], ResolvedIds(ms)));
            if Survives(ms, j) then |out| == 1 && KeptAs(ms, ms[j], out[0]) else out == []
  {
    var resolved := ResolvedIds(ms);
    match ms[j] {
      case Tool(id) =>
        PrefixAnnounces(ms, j, id);
        ResolvedIsAnswerable(ms, id);
      case Assistant(text, calls) =>
        AnswersKept(ms, calls, text);
        SomeKept(ms, calls);
      case _ =>
    }
  }

  lemma SomeKept(ms: seq<Message>, calls: seq<CallId>)
    ensures KeepCalls(calls, ResolvedIds(ms)) == [] <==> forall id | id in calls :: !Answerable(ms, id)
  {
    var k := KeepCalls(calls, ResolvedIds(ms));
    forall id
      ensures id in k <==> id in calls && Answerable(ms, id)
    {
      ResolvedIsAnswerable(ms, id);
    }
    if k != [] {
      assert k[0] in k;
    }
  }

  /** The positions of the first `n` messages that survive. */
  ghost predicate Surviving(ms: seq<Message>, n: nat, ps: seq<nat>)
    requires n <= |ms|
  {
    && Ascends(ps)
    && (forall j: nat :: j in ps <==> j < n && Survives(ms, j))
  }

  ghost predicate RepairedAt(ms: seq<Message>, ps: seq<nat>, out: seq<Message>) {
    |out| == |ps| && forall i | 0 <= i < |ps| :: ps[i] < |ms| && KeptAs(ms, ms[ps[i]], out[i])
  }

  lemma SurvivorsNext(ms: seq<Message>, n: nat, qs: seq<nat>) returns (ps: seq<nat>)
    requires n < |ms| && Surviving(ms, n, qs)
    ensures Surviving(ms, n + 1, ps) && ps == if Survives(ms, n) then qs + [n] else qs
  {
    ps := if Survives(ms, n) then qs + [n] else qs;
    forall i | 0 <= i < |qs|
      ensures qs[i] < n
    {
      assert qs[i] in qs;
    }
  }

  lemma {:induction false} RepairFirst(ms: seq<Message>, n: nat) returns (ps: seq<nat>)
    requires n <= |ms|
    ensures Surviving(ms, n, ps) && RepairedAt(ms, ps, SalvageAll(ms[..n], ResolvedIds(ms)))
  {
    ps := [];
    if n > 0 {
      var qs := RepairFirst(ms, n - 1);
      SalvageSnoc(ms, n - 1, ResolvedIds(ms));
      SalvageOne(ms, n - 1);
      ps := SurvivorsNext(ms, n - 1, qs);
    }
  }

  /** For every seed: the repaired transcript lists, in order, exactly the surviving messages, each as it
      is kept. */
  lemma RepairExactly(ms: seq<Message>)
    ensures exists ps: seq<nat> ::
              Surviving(ms, |ms|, ps) && RepairedAt(ms, ps, SalvageAll(ms, ResolvedIds(ms)))
  {
    var ps := RepairFirst(ms, |ms|);
    assert ms[..|ms|] == ms;
  }
}
