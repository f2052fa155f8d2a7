/** The benchmark's ingest cache: each haystack is ingested once, and every case that shares it waits
    on the same pending ingest, under every interleaving of the cases. */
module IngestCache {

  type Ref = nat                              // identity of a haystack array
  type Fact = string

  /** One ingest of a haystack: the facts remembered so far, then its outcome. */
  datatype Ingest =
    | Running(ref: Ref, done: seq<Fact>)
    | Resolved(ref: Ref, memory: seq<Fact>)
    | Rejected(ref: Ref)

  datatype Phase =
    | Waiting(pid: nat)
    | Recalling(memory: seq<Fact>)
    | Answered(answer: string)
    | IngestFailed
    | AnswerFailed

  datatype Case = Case(ref: Ref, question: string, phase: Phase)

  /** `notified` counts the calls of the per-ingest hook. */
  datatype State = State(cache: map<Ref, nat>, ingests: seq<Ingest>, cases: map<nat, Case>, notified: nat)

  /** The haystacks' facts in order, and recall plus answering over a memory, which only reads it. */
  datatype Bench = Bench(content: Ref -> seq<Fact>, respond: (seq<Fact>, string) -> string)

  datatype Event =
    | Begin(id: nat, ref: Ref, question: string)   // a case starts: look up the cache, maybe start an ingest
    | Remember(pid: nat)                           // one more turn is stored
    | Finish(pid: nat)
    | Throw(pid: nat)                              // any await of the ingest rejects
    | Resume(id: nat)                              // a case sees its ingest settled
    | Respond(id: nat)
    | RespondThrows(id: nat)

  // ---------------------------------------------------------------- steps

  /** Look up or start the ingest of a haystack. */
  function Lookup(s: State, ref: Ref): (State, nat) {
    if ref in s.cache then (s, s.cache[ref])
    else (s.(cache := s.cache[ref := |s.ingests|], ingests := s.ingests + [Running(ref, [])]), |s.ingests|)
  }

  ghost predicate Enabled(b: Bench, s: State, ev: Event) {
    match ev
    case Begin(id, _, _) => id !in s.cases
    case Remember(pid) =>
      pid < |s.ingests| && s.ingests[pid].Running? && |s.ingests[pid].done| < |b.content(s.ingests[pid].ref)|
    case Finish(pid) =>
      pid < |s.ingests| && s.ingests[pid].Running? && |s.ingests[pid].done| == |b.content(s.ingests[pid].ref)|
    case Throw(pid) => pid < |s.ingests| && s.ingests[pid].Running?
    case Resume(id) =>
      id in s.cases && s.cases[id].phase.Waiting? && s.cases[id].phase.pid < |s.ingests| &&
      !s.ingests[s.cases[id].phase.pid].Running?
    case Respond(id) => id in s.cases && s.cases[id].phase.Recalling?
    case RespondThrows(id) => id in s.cases && s.cases[id].phase.Recalling?
  }

  ghost function Next(b: Bench, s: State, ev: Event): State
    requires Enabled(b, s, ev)
  {
    match ev
    case Begin(id, ref, q) =>
      var (s', pid) := Lookup(s, ref);
      s'.(cases := s'.cases[id := Case(ref, q, Waiting(pid))])
    case Remember(pid) =>
      var i := s.ingests[pid];
      s.(ingests := s.ingests[pid := Running(i.ref, i.done + [b.content(i.ref)[|i.done|]])])
    case Finish(pid) =>
      s.(ingests := s.ingests[pid := Resolved(s.ingests[pid].ref, s.ingests[pid].done)], notified := s.notified + 1)
    case Throw(pid) => s.(ingests := s.ingests[pid := Rejected(s.ingests[pid].ref)])
    case Resume(id) =>
      var i := s.ingests[s.cases[id].phase.pid];
      SetPhase(s, id, if i.Resolved? then Recalling(i.memory) else IngestFailed)
    case Respond(id) => SetPhase(s, id, Answered(b.respond(s.cases[id].phase.memory, s.cases[id].question)))
    case RespondThrows(id) => SetPhase(s, id, AnswerFailed)
  }

  function SetPhase(s: State, id: nat, ph: Phase): State
    requires id in s.cases
  {
    s.(cases := s.cases[id := s.cases[id].(phase := ph)])
  }

  const START := State(map[], [], map[], 0)

  ghost predicate Runs(b: Bench, ss: seq<State>, evs: seq<Event>) {
    && |ss| == |evs| + 1 && ss[0] == START
    && forall k | 0 <= k < |evs| :: Enabled(b, ss[k], evs[k]) && ss[k + 1] == Next(b, ss[k], evs[k])
  }

  /** The cache as the agent's closure holds it. */
  class Cache {
    var cache: map<Ref, nat>
    var ingests: seq<Ingest>

    constructor ()
      ensures cache == map[] && ingests == []
    {
      cache, ingests := map[], [];
    }

    method IngestConversation(ref: Ref) returns (pid: nat)
      modifies this
      ensures forall s: State | s.cache == old(cache) && s.ingests == old(ingests) ::
                Lookup(s, ref) == (s.(cache := cache, ingests := ingests), pid)
      ensures ref in old(cache) ==> pid == old(cache)[ref] && cache == old(cache) && ingests == old(ingests)
      ensures ref !in old(cache) ==>
                && pid == |old(ingests)| && cache == old(cache)[ref := pid]
                && ingests == old(ingests) + [Running(ref, [])]
    {
      if ref in cache {
        return cache[ref];
      }
      pid := |ingests|;
      ingests := ingests + [Running(ref, [])];
      cache := cache[ref := pid];
    }
  }

  // ---------------------------------------------------------------- what a fresh ingest gives

  /** A per-case ingest without a cache: remember every turn, then answer. */
  function FreshAnswer(b: Bench, ref: Ref, question: string): string {
    b.respond(Remembered(b.content(ref), []), question)
  }

  function Remembered(turns: seq<Fact>, memory: seq<Fact>): seq<Fact>
    decreases |turns|
  {
    if turns == [] then memory else Remembered(turns[1..], memory + [turns[0]])
  }

  lemma {:induction false} RememberedAll(turns: seq<Fact>, memory: seq<Fact>)
    ensures Remembered(turns, memory) == memory + turns
    decreases |turns|
  {
    if turns != [] {
      RememberedAll(turns[1..], memory + [turns[0]]);
      assert memory + [turns[0]] + turns[1..] == memory + turns;
    }
  }

  // ---------------------------------------------------------------- invariant

  ghost predicate Indexed(s: State) {
    && (forall r | r in s.cache :: s.cache[r] < |s.ingests| && s.ingests[s.cache[r]].ref == r)
    && (forall p | 0 <= p < |s.ingests| :: s.ingests[p].ref in s.cache && s.cache[s.ingests[p].ref] == p)
  }

  ghost predicate Progress(b: Bench, i: Ingest) {
    match i
    case Running(r, done) => |done| <= |b.content(r)| && done == b.content(r)[..|done|]
    case Resolved(r, memory) => memory == b.content(r)
    case Rejected(_) => true
  }

  ghost predicate CaseSound(b: Bench, s: State, c: Case) {
    && c.ref in s.cache && s.cache[c.ref] < |s.ingests|
    && var i := s.ingests[s.cache[c.ref]];
       match c.phase
       case Waiting(pid) => pid == s.cache[c.ref]
       case Recalling(m) => i.Resolved? && m == b.content(c.ref)
       case Answered(a) => i.Resolved? && a == b.respond(b.content(c.ref), c.question)
       case IngestFailed => i.Rejected?
       case AnswerFailed => i.Resolved?
  }

  ghost predicate Sound(b: Bench, s: State) {
    && Indexed(s)
    && (forall p | 0 <= p < |s.ingests| :: Progress(b, s.ingests[p]))
    && (forall id | id in s.cases :: CaseSound(b, s, s.cases[id]))
  }

  lemma LookupSound(b: Bench, s: State, ref: Ref)
    requires Sound(b, s)
    ensures Sound(b, Lookup(s, ref).0)
    ensures ref in Lookup(s, ref).0.cache && Lookup(s, ref).1 == Lookup(s, ref).0.cache[ref]
  {
    var s' := Lookup(s, ref).0;
    forall id | id in s'.cases
      ensures CaseSound(b, s', s'.cases[id])
    {
      assert CaseSound(b, s, s.cases[id]);
    }
  }

  /** A running ingest moves on. */
  lemma IngestSound(b: Bench, s: State, p: nat, i: Ingest, notified: nat)
    requires Sound(b, s) && p < |s.ingests| && s.ingests[p].Running? && i.ref == s.ingests[p].ref && Progress(b, i)
    ensures Sound(b, s.(ingests := s.ingests[p := i], notified := notified))
  {
    var s' := s.(ingests := s.ingests[p := i], notified := notified);
    forall id | id in s'.cases
      ensures CaseSound(b, s', s'.cases[id])
    {
      assert CaseSound(b, s, s.cases[id]);
    }
  }

  /** A case takes on a phase its ingest allows. */
  lemma CaseMoves(b: Bench, s: State, id: nat, c: Case)
    requires Sound(b, s) && CaseSound(b, s, c)
    ensures Sound(b, s.(cases := s.cases[id := c]))
  {
    var s' := s.(cases := s.cases[id := c]);
    forall k | k in s'.cases
      ensures CaseSound(b, s', s'.cases[k])
    {
      assert k != id ==> CaseSound(b, s, s.cases[k]);
    }
  }

  lemma NextKeepsSound(b: Bench, s: State, ev: Event)
    requires Sound(b, s) && Enabled(b, s, ev)
    ensures Sound(b, Next(b, s, ev))
  {
    match ev {
      case Begin(id, ref, q) =>
        LookupSound(b, s, ref);
        CaseMoves(b, Lookup(s, ref).0, id, Case(ref, q, Waiting(Lookup(s, ref).1)));
      case Remember(pid) => IngestSound(b, s, pid, Next(b, s, ev).ingests[pid], s.notified);
      case Finish(pid) => IngestSound(b, s, pid, Next(b, s, ev).ingests[pid], s.notified + 1);
      case Throw(pid) => IngestSound(b, s, pid, Next(b, s, ev).ingests[pid], s.notified);
      case Resume(id) =>
        assert CaseSound(b, s, s.cases[id]);
        CaseMoves(b, s, id, Next(b, s, ev).cases[id]);
      case Respond(id) =>
        assert CaseSound(b, s, s.cases[id]);
        CaseMoves(b, s, id, Next(b, s, ev).cases[id]);
      case RespondThrows(id) =>
        assert CaseSound(b, s, s.cases[id]);
        CaseMoves(b, s, id, Next(b, s, ev).cases[id]);
    }
  }

  lemma {:induction false} SoundThroughout(b: Bench, ss: seq<State>, evs: seq<Event>, n: nat)
    requires Runs(b, ss, evs) && n <= |evs|
    ensures Sound(b, ss[n])
  {
    if n > 0 {
      SoundThroughout(b, ss, evs, n - 1);
      NextKeepsSound(b, ss[n - 1], evs[n - 1]);
    }
  }

  // ---------------------------------------------------------------- main results

  /** At most one ingest attempt per haystack, in every reachable state. */
  lemma OneAttemptEach(b: Bench, ss: seq<State>, evs: seq<Event>, n: nat, p: nat, q: nat)
    requires Runs(b, ss, evs) && n <= |evs| && p < |ss[n].ingests| && q < |ss[n].ingests|
    ensures ss[n].ingests[p].ref == ss[n].ingests[q].ref <==> p == q
  {
    SoundThroughout(b, ss, evs, n);
  }

  /** Cases that share a haystack share its outcome. */
  lemma SharedOutcome(b: Bench, ss: seq<State>, evs: seq<Event>, n: nat, i: nat, j: nat)
    requires Runs(b, ss, evs) && n <= |evs| && i in ss[n].cases && j in ss[n].cases
    requires ss[n].cases[i].ref == ss[n].cases[j].ref
    ensures ss[n].cases[i].phase.IngestFailed? ==> ss[n].cases[j].phase.IngestFailed? || ss[n].cases[j].phase.Waiting?
    ensures ss[n].cases[i].phase.Recalling? && ss[n].cases[j].phase.Recalling? ==>
              ss[n].cases[i].phase == ss[n].cases[j].phase
  {
    SoundThroughout(b, ss, evs, n);
    assert CaseSound(b, ss[n], ss[n].cases[i]) && CaseSound(b, ss[n], ss[n].cases[j]);
  }

  /** Every answer is the one a fresh per-case ingest would have led to. */
  lemma AnswersAreFresh(b: Bench, ss: seq<State>, evs: seq<Event>, n: nat, i: nat)
    requires Runs(b, ss, evs) && n <= |evs| && i in ss[n].cases && ss[n].cases[i].phase.Answered?
    ensures ss[n].cases[i].phase.answer == FreshAnswer(b, ss[n].cases[i].ref, ss[n].cases[i].question)
  {
    SoundThroughout(b, ss, evs, n);
    assert CaseSound(b, ss[n], ss[n].cases[i]);
    RememberedAll(b.content(ss[n].cases[i].ref), []);
    assert [] + b.content(ss[n].cases[i].ref) == b.content(ss[n].cases[i].ref);
  }

  /** A settled ingest never changes, so a rejected one is never retried. */
  lemma {:induction false} SettledStays(b: Bench, ss: seq<State>, evs: seq<Event>, m: nat, n: nat, p: nat)
    requires Runs(b, ss, evs) && m <= n <= |evs| && p < |ss[m].ingests| && !ss[m].ingests[p].Running?
    ensures p < |ss[n].ingests| && ss[n].ingests[p] == ss[m].ingests[p]
    decreases n
  {
    if m < n {
      SettledStays(b, ss, evs, m, n - 1, p);
      assert ss[n] == Next(b, ss[n - 1], evs[n - 1]);
    }
  }

  /** One rejected ingest fails every case of its haystack for good, where fresh ingests might recover. */
  lemma RejectionIsFinal(b: Bench, ss: seq<State>, evs: seq<Event>, m: nat, n: nat, p: nat, i: nat)
    requires Runs(b, ss, evs) && m <= n <= |evs| && p < |ss[m].ingests| && ss[m].ingests[p].Rejected?
    requires i in ss[n].cases && ss[n].cases[i].ref == ss[m].ingests[p].ref
    ensures ss[n].cases[i].phase.Waiting? || ss[n].cases[i].phase.IngestFailed?
  {
    SettledStays(b, ss, evs, m, n, p);
    SoundThroughout(b, ss, evs, n);
    assert CaseSound(b, ss[n], ss[n].cases[i]);
  }

  // ---------------------------------------------------------------- the hook

  ghost function ResolvedCount(ingests: seq<Ingest>): nat {
    if ingests == [] then 0
    else ResolvedCount(ingests[..|ingests| - 1]) + if ingests[|ingests| - 1].Resolved? then 1 else 0
  }

  lemma {:induction false} CountSet(s: seq<Ingest>, p: nat, i: Ingest)
    requires p < |s|
    ensures ResolvedCount(s[p := i]) ==
            ResolvedCount(s) - (if s[p].Resolved? then 1 else 0) + (if i.Resolved? then 1 else 0)
  {
    var n := |s| - 1;
    if p < n {
      CountSet(s[..n], p, i);
      assert s[p := i][..n] == s[..n][p := i];
    } else {
      assert s[p := i][..n] == s[..n];
    }
  }

  lemma BeginCounts(s: State, ref: Ref)
    ensures ResolvedCount(Lookup(s, ref).0.ingests) == ResolvedCount(s.ingests)
  {
    if ref !in s.cache {
      assert (s.ingests + [Running(ref, [])])[..|s.ingests|] == s.ingests;
    }
  }

  lemma IngestCounts(b: Bench, s: State, ev: Event, pid: nat)
    requires Enabled(b, s, ev) && (ev == Remember(pid) || ev == Finish(pid) || ev == Throw(pid))
    ensures ResolvedCount(Next(b, s, ev).ingests) == ResolvedCount(s.ingests) + (if ev.Finish? then 1 else 0)
  {
    var i := Next(b, s, ev).ingests[pid];
    assert Next(b, s, ev).ingests == s.ingests[pid := i];
    CountSet(s.ingests, pid, i);
  }

  lemma NextCounts(b: Bench, s: State, ev: Event)
    requires Enabled(b, s, ev)
    ensures ResolvedCount(Next(b, s, ev).ingests) == ResolvedCount(s.ingests) + (if ev.Finish? then 1 else 0)
    ensures Next(b, s, ev).notified == s.notified + (if ev.Finish? then 1 else 0)
  {
    match ev {
      case Begin(_, ref, _) => BeginCounts(s, ref);
      case Remember(pid) => IngestCounts(b, s, ev, pid);
      case Finish(pid) => IngestCounts(b, s, ev, pid);
      case Throw(pid) => IngestCounts(b, s, ev, pid);
      case _ =>
    }
  }

  /** The hook fires once per successful ingest. */
  lemma {:induction false} NotifiedOncePerIngest(b: Bench, ss: seq<State>, evs: seq<Event>, n: nat)
    requires Runs(b, ss, evs) && n <= |evs|
    ensures ss[n].notified == ResolvedCount(ss[n].ingests) <= |ss[n].ingests|
  {
    CountBound(ss[n].ingests);
    if n > 0 {
      NotifiedOncePerIngest(b, ss, evs, n - 1);
      NextCounts(b, ss[n - 1], evs[n - 1]);
    }
  }

  lemma {:induction false} CountBound(s: seq<Ingest>)
    ensures ResolvedCount(s) <= |s|
  {
    if s != [] {
      CountBound(s[..|s| - 1]);
    }
  }
}
