/** Pairing at `await` granularity: every store call and clock read of a check or an approval is its
    own step, and the steps of any number of calls interleave under a clock that never runs back. */
module PairingRace {
  import opened Options
  import opened Sets
  import opened Pairing

  datatype Phase =
    // a check of `peer`
    | Asking                                    // about to read the paired table
    | Clocking                                  // about to read the clock
    | Finding(at: int)                          // about to look up the peer's request
    | Pruning(at: int)
    | Counting(at: int)
    | Writing(at: int)                          // about to draw a code and upsert
    | Answered(d: Decision)

  datatype ApprovalPhase =
    | Seeking                                   // about to look up the code
    | Deleting(found: Peer, expires: int)
    | Timing(found: Peer, expires: int)         // about to read the clock
    | Adding(found: Peer)
    | Concluded(g: Option<Peer>)

  datatype Task =
    | Checking(peer: Peer, phase: Phase)
    | Approving(channel: string, code: string, stage: ApprovalPhase)

  /** Finished tasks stay in `tasks`; `issued` logs the codes written. */
  datatype World = World(store: Store, clock: int, tasks: map<nat, Task>, issued: set<(Peer, string)>)

  datatype Event =
    | StartCheck(id: nat, peer: Peer)
    | StartApproval(id: nat, channel: string, code: string)
    | Advance(id: nat, drawn: string)           // one step of a task; `drawn` is the generator's next code
    | RevokePeer(peer: Peer)
    | Tick(clock: int)

  // ---------------------------------------------------------------- steps

  function CheckStep(c: Config, w: World, p: Peer, ph: Phase, drawn: string): (Store, Phase) {
    match ph
    case Asking => (w.store, if p in w.store.paired then Answered(Allow) else Clocking)
    case Clocking => (w.store, Finding(w.clock))
    case Finding(at) =>
      (w.store, if p in w.store.requests && w.store.requests[p].expires > at
                then Answered(Challenge(w.store.requests[p].code, w.store.requests[p].expires, false))
                else Pruning(at))
    case Pruning(at) => (Prune(w.store, at), Counting(at))
    case Counting(at) =>
      (w.store, if |LivePeers(w.store, p.channel, at)| >= c.maxPending then Answered(Deny(PairingLimit))
                else Writing(at))
    case Writing(at) => (Upsert(w.store, p, Request(drawn, at + c.ttl)), Answered(Challenge(drawn, at + c.ttl, true)))
    case Answered(_) => (w.store, ph)
  }

  ghost function ApprovalStep(w: World, channel: string, code: string, ph: ApprovalPhase): (Store, ApprovalPhase) {
    match ph
    case Seeking =>
      (w.store, match FindByCode(w.store, channel, code)
                case None => Concluded(None)
                case Some(q) => Deleting(q, w.store.requests[q].expires))
    case Deleting(q, e) => (DeleteCode(w.store, channel, code), Timing(q, e))
    case Timing(q, e) => (w.store, if e <= w.clock then Concluded(None) else Adding(q))
    case Adding(q) => (w.store.(paired := w.store.paired + {q}), Concluded(Some(q)))
    case Concluded(_) => (w.store, ph)
  }

  ghost function AdvanceTask(c: Config, w: World, id: nat, drawn: string): World
    requires id in w.tasks
  {
    match w.tasks[id]
    case Checking(p, ph) =>
      var (s, ph') := CheckStep(c, w, p, ph, drawn);
      w.(store := s, tasks := w.tasks[id := Checking(p, ph')],
         issued := if ph.Writing? then w.issued + {(p, drawn)} else w.issued)
    case Approving(ch, code, st) =>
      var (s, st') := ApprovalStep(w, ch, code, st);
      w.(store := s, tasks := w.tasks[id := Approving(ch, code, st')])
  }

  ghost predicate Enabled(w: World, ev: Event) {
    match ev
    case StartCheck(id, _) => id !in w.tasks
    case StartApproval(id, _, _) => id !in w.tasks
    case Advance(id, _) => id in w.tasks
    case RevokePeer(_) => true
    case Tick(t) => w.clock <= t
  }

  ghost function Next(c: Config, w: World, ev: Event): World
    requires Enabled(w, ev)
  {
    match ev
    case StartCheck(id, p) => w.(tasks := w.tasks[id := Checking(p, Asking)])
    case StartApproval(id, ch, code) => w.(tasks := w.tasks[id := Approving(ch, code, Seeking)])
    case Advance(id, drawn) => AdvanceTask(c, w, id, drawn)
    case RevokePeer(p) => w.(store := Revoke(w.store, p))
    case Tick(t) => w.(clock := t)
  }

  function Start(clock: int): World {
    World(EMPTY, clock, map[], {})
  }

  /** The worlds a run passes through are consecutive. */
  ghost predicate Runs(c: Config, ws: seq<World>, evs: seq<Event>) {
    && |ws| == |evs| + 1
    && ws[0] == Start(ws[0].clock)
    && forall k | 0 <= k < |evs| :: Enabled(ws[k], evs[k]) && ws[k + 1] == Next(c, ws[k], evs[k])
  }

  // ---------------------------------------------------------------- the pending cap

  predicate IsInFlight(t: Task, channel: string) {
    t.Checking? && t.peer.channel == channel && !t.phase.Answered?
  }

  predicate IsWriter(t: Task, channel: string) {
    t.Checking? && t.peer.channel == channel && t.phase.Writing?
  }

  /** Checks of a channel in flight, and those of them about to write. */
  ghost function InFlight(tasks: map<nat, Task>, channel: string): set<nat> {
    set id | id in tasks && IsInFlight(tasks[id], channel)
  }

  ghost function Writers(tasks: map<nat, Task>, channel: string): set<nat> {
    set id | id in tasks && IsWriter(tasks[id], channel)
  }

  ghost function Live(w: World, channel: string): set<Peer> {
    LivePeers(w.store, channel, w.clock)
  }

  ghost function Bound(c: Config, most: nat): int {
    if c.maxPending <= 0 then 0 else c.maxPending - 1 + most
  }

  /** A remembered clock reading is never ahead of the clock. */
  ghost predicate Stale(w: World) {
    forall id | id in w.tasks && w.tasks[id].Checking? ::
      match w.tasks[id].phase
      case Finding(at) => at <= w.clock
      case Pruning(at) => at <= w.clock
      case Counting(at) => at <= w.clock
      case Writing(at) => at <= w.clock
      case _ => true
  }

  /** Only a positive cap lets a check reach its write. */
  ghost predicate Capped(c: Config, w: World) {
    forall id | id in w.tasks && w.tasks[id].Checking? :: w.tasks[id].phase.Writing? ==> c.maxPending > 0
  }

  ghost predicate CapKept(c: Config, w: World, channel: string, most: nat) {
    Stale(w) && Capped(c, w) && |Live(w, channel)| + |Writers(w.tasks, channel)| <= Bound(c, most)
  }

  lemma SetWriter(tasks: map<nat, Task>, id: nat, t: Task, channel: string)
    ensures |Writers(tasks[id := t], channel)| ==
            |Writers(tasks, channel)| - (if id in tasks && IsWriter(tasks[id], channel) then 1 else 0)
            + (if IsWriter(t, channel) then 1 else 0)
  {
    var a, b := Writers(tasks, channel), Writers(tasks[id := t], channel);
    forall x
      ensures x in a - {id} <==> x in b - {id}
    {
    }
    Without(a, id);
    Without(b, id);
    assert a - {id} == b - {id};
  }

  lemma CheckLive(c: Config, w: World, p: Peer, ph: Phase, drawn: string, channel: string)
    requires ph.Pruning? ==> ph.at <= w.clock
    ensures var s := CheckStep(c, w, p, ph, drawn).0;
            |LivePeers(s, channel, w.clock)| <=
            |Live(w, channel)| + (if ph.Writing? && p.channel == channel then 1 else 0)
  {
    if ph.Writing? {
      UpsertLive(w.store, p, Request(drawn, ph.at + c.ttl), channel, w.clock);
    } else {
      Within(LivePeers(CheckStep(c, w, p, ph, drawn).0, channel, w.clock), Live(w, channel));
    }
  }

  lemma ApprovalLive(w: World, ch: string, code: string, st: ApprovalPhase, channel: string)
    ensures |LivePeers(ApprovalStep(w, ch, code, st).0, channel, w.clock)| <= |Live(w, channel)|
  {
    Within(LivePeers(ApprovalStep(w, ch, code, st).0, channel, w.clock), Live(w, channel));
  }

  lemma AdvanceCheckKeeps(c: Config, w: World, id: nat, drawn: string, channel: string, most: nat)
    requires id in w.tasks && w.tasks[id].Checking? && CapKept(c, w, channel, most)
    requires |Writers(AdvanceTask(c, w, id, drawn).tasks, channel)| <= most
    ensures CapKept(c, AdvanceTask(c, w, id, drawn), channel, most)
  {
    var w' := AdvanceTask(c, w, id, drawn);
    var p, ph := w.tasks[id].peer, w.tasks[id].phase;
    CheckLive(c, w, p, ph, drawn, channel);
    SetWriter(w.tasks, id, w'.tasks[id], channel);
    if ph.Counting? && w'.tasks[id].phase.Writing? && p.channel == channel {
      LaterFewer(w.store, channel, ph.at, w.clock);
      assert |Live(w', channel)| <= c.maxPending - 1;
    }
  }

  lemma AdvanceApprovalKeeps(c: Config, w: World, id: nat, drawn: string, channel: string, most: nat)
    requires id in w.tasks && w.tasks[id].Approving? && CapKept(c, w, channel, most)
    ensures CapKept(c, AdvanceTask(c, w, id, drawn), channel, most)
  {
    ApprovalLive(w, w.tasks[id].channel, w.tasks[id].code, w.tasks[id].stage, channel);
    SetWriter(w.tasks, id, AdvanceTask(c, w, id, drawn).tasks[id], channel);
  }

  lemma WritersFly(tasks: map<nat, Task>, channel: string)
    ensures |Writers(tasks, channel)| <= |InFlight(tasks, channel)|
  {
    Within(Writers(tasks, channel), InFlight(tasks, channel));
  }

  lemma NextKeepsCap(c: Config, w: World, ev: Event, channel: string, most: nat)
    requires Enabled(w, ev) && CapKept(c, w, channel, most) && |InFlight(Next(c, w, ev).tasks, channel)| <= most
    ensures CapKept(c, Next(c, w, ev), channel, most)
  {
    var w' := Next(c, w, ev);
    WritersFly(w'.tasks, channel);
    match ev {
      case StartCheck(id, _) => SetWriter(w.tasks, id, w'.tasks[id], channel);
      case StartApproval(id, _, _) => SetWriter(w.tasks, id, w'.tasks[id], channel);
      case Advance(id, drawn) =>
        if w.tasks[id].Checking? {
          AdvanceCheckKeeps(c, w, id, drawn, channel, most);
        } else {
          AdvanceApprovalKeeps(c, w, id, drawn, channel, most);
        }
      case RevokePeer(p) => assert Live(w', channel) == Live(w, channel);
      case Tick(t) => LaterFewer(w.store, channel, w.clock, t);
    }
  }

  lemma {:induction false} CapHolds(c: Config, ws: seq<World>, evs: seq<Event>, n: nat, channel: string, most: nat)
    requires Runs(c, ws, evs) && n <= |evs|
    requires forall k | 0 <= k <= n :: |InFlight(ws[k].tasks, channel)| <= most
    ensures CapKept(c, ws[n], channel, most)
  {
    if n > 0 {
      CapHolds(c, ws, evs, n - 1, channel, most);
      NextKeepsCap(c, ws[n - 1], evs[n - 1], channel, most);
    } else {
      assert Live(ws[0], channel) == {} && Writers(ws[0].tasks, channel) == {};
    }
  }

  /** Under every interleaving with at most `most` checks of the channel in flight, the unexpired
      requests of the channel stay within `maxPending - 1 + most`; none is ever written under a
      non-positive cap. */
  lemma ConcurrentCap(c: Config, ws: seq<World>, evs: seq<Event>, n: nat, channel: string, most: nat)
    requires Runs(c, ws, evs) && n <= |evs|
    requires forall k | 0 <= k <= n :: |InFlight(ws[k].tasks, channel)| <= most
    ensures |Live(ws[n], channel)| <= Bound(c, most)
  {
    CapHolds(c, ws, evs, n, channel, most);
  }

  // ---------------------------------------------------------------- the bound is reached

  const CH := "ch"

  function Name(k: nat): (s: string)
    ensures |s| == k
  {
    seq(k, _ => 'x')
  }

  function Nth(k: nat): Peer { Peer(CH, "", Name(k)) }

  /** `k` live requests, by peers and with codes numbered below `k`, nobody paired. */
  ghost predicate Filled(c: Config, s: Store, k: nat) {
    && s.paired == {} && |s.requests.Keys| == k
    && forall p | p in s.requests ::
         p.channel == CH && |p.id| < k && |s.requests[p].code| < k && s.requests[p].expires == c.ttl
  }

  /** Tasks below `k` are answered, the next `j` are about to write. */
  ghost predicate Queued(tasks: map<nat, Task>, k: nat, j: nat) {
    && (forall i: nat :: i in tasks <==> i < k + j)
    && (forall i: nat | i < k :: tasks[i].Checking? && tasks[i].phase.Answered?)
    && (forall i: nat | k <= i < k + j :: tasks[i] == Checking(Nth(i), Writing(0)))
  }

  ghost predicate Crowd(c: Config, w: World, k: nat, j: nat) {
    Filled(c, w.store, k) && w.clock == 0 && Queued(w.tasks, k, j)
  }

  ghost predicate Bounded(ws: seq<World>, channel: string, most: nat) {
    forall k | 0 <= k < |ws| :: |InFlight(ws[k].tasks, channel)| <= most
  }

  /** A run within the concurrency limit ends in `w`. */
  ghost predicate Reaches(c: Config, most: nat, w: World) {
    exists ws: seq<World>, evs: seq<Event> :: Runs(c, ws, evs) && Bounded(ws, CH, most) && ws[|evs|] == w
  }

  lemma Extend(c: Config, most: nat, w: World, ev: Event)
    requires Reaches(c, most, w) && Enabled(w, ev) && |InFlight(Next(c, w, ev).tasks, CH)| <= most
    ensures Reaches(c, most, Next(c, w, ev))
  {
    var ws: seq<World>, evs: seq<Event> :| Runs(c, ws, evs) && Bounded(ws, CH, most) && ws[|evs|] == w;
    var ws', evs' := ws + [Next(c, w, ev)], evs + [ev];
    assert Runs(c, ws', evs') && Bounded(ws', CH, most) && ws'[|evs'|] == Next(c, w, ev);
  }

  ghost function Span(k: nat, j: nat): (ids: set<nat>)
    ensures |ids| == j && forall i: nat :: i in ids <==> k <= i < k + j
  {
    if j == 0 then {} else Span(k, j - 1) + {k + j - 1}
  }

  lemma QueuedFlight(tasks: map<nat, Task>, k: nat, j: nat)
    requires Queued(tasks, k, j)
    ensures |InFlight(tasks, CH)| == j
  {
    assert InFlight(tasks, CH) == Span(k, j);
  }

  lemma QueuedJoin(tasks: map<nat, Task>, k: nat, j: nat)
    requires Queued(tasks, k, j)
    ensures Queued(tasks[k + j := Checking(Nth(k + j), Writing(0))], k, j + 1)
  {
  }

  lemma QueuedLeave(tasks: map<nat, Task>, k: nat, j: nat, t: Task)
    requires Queued(tasks, k, j) && j > 0 && t.Checking? && t.phase.Answered?
    ensures Queued(tasks[k := t], k + 1, j - 1)
  {
  }

  lemma FilledLive(c: Config, s: Store, k: nat)
    requires Filled(c, s, k) && c.ttl > 0
    ensures |LivePeers(s, CH, 0)| == k && Prune(s, 0) == s
  {
    assert Prune(s, 0).requests == s.requests;
    assert LivePeers(s, CH, 0) == s.requests.Keys;
  }

  lemma FillOne(c: Config, s: Store, k: nat)
    requires Filled(c, s, k)
    ensures Filled(c, Upsert(s, Nth(k), Request(Name(k), c.ttl)), k + 1)
  {
    var s' := Upsert(s, Nth(k), Request(Name(k), c.ttl));
    assert Nth(k) !in s.requests;
    assert s'.requests.Keys == s.requests.Keys + {Nth(k)};
  }

  ghost function Joining(w: World, id: nat, ph: Phase): World {
    w.(tasks := w.tasks[id := Checking(Nth(id), ph)])
  }

  lemma JoinFlight(tasks: map<nat, Task>, k: nat, j: nat, t: Task)
    requires Queued(tasks, k, j)
    ensures |InFlight(tasks[k + j := t], CH)| <= j + 1
  {
    QueuedFlight(tasks, k, j);
    Within(InFlight(tasks[k + j := t], CH), InFlight(tasks, CH) + {k + j});
    assert |InFlight(tasks, CH) + {k + j}| <= j + 1;
  }

  /** One more check comes in and proceeds to its write while fewer than the cap are live. */
  lemma Join(c: Config, most: nat, w: World, k: nat, j: nat) returns (w': World)
    requires Reaches(c, most, w) && Crowd(c, w, k, j) && k < c.maxPending && j < most && c.ttl > 0
    ensures Reaches(c, most, w') && Crowd(c, w', k, j + 1)
  {
    var id := k + j;
    FilledLive(c, w.store, k);
    assert Nth(id) !in w.store.requests;
    forall ph
      ensures |InFlight(Joining(w, id, ph).tasks, CH)| <= most
    {
      JoinFlight(w.tasks, k, j, Checking(Nth(id), ph));
    }
    assert Next(c, w, StartCheck(id, Nth(id))) == Joining(w, id, Asking);
    Extend(c, most, w, StartCheck(id, Nth(id)));
    JoinSteps(c, most, w, id);
    w' := Joining(w, id, Writing(0));
    QueuedJoin(w.tasks, k, j);
  }

  lemma JoinSteps(c: Config, most: nat, w: World, id: nat)
    requires Reaches(c, most, Joining(w, id, Asking)) && forall ph :: |InFlight(Joining(w, id, ph).tasks, CH)| <= most
    requires Nth(id) !in w.store.requests && w.store.paired == {} && w.clock == 0
    requires |LivePeers(w.store, CH, 0)| < c.maxPending && Prune(w.store, 0) == w.store
    ensures Reaches(c, most, Joining(w, id, Writing(0)))
  {
    JoinStep(c, most, w, id, Asking, Clocking);
    JoinStep(c, most, w, id, Clocking, Finding(0));
    JoinStep(c, most, w, id, Finding(0), Pruning(0));
    JoinStep(c, most, w, id, Pruning(0), Counting(0));
    JoinStep(c, most, w, id, Counting(0), Writing(0));
  }

  lemma JoinStep(c: Config, most: nat, w: World, id: nat, ph: Phase, ph': Phase)
    requires Reaches(c, most, Joining(w, id, ph)) && |InFlight(Joining(w, id, ph').tasks, CH)| <= most
    requires CheckStep(c, Joining(w, id, ph), Nth(id), ph, "") == (w.store, ph') && !ph.Writing?
    ensures Reaches(c, most, Joining(w, id, ph'))
  {
    var w1, ev := Joining(w, id, ph), Advance(id, "");
    assert Next(c, w1, ev).tasks == Joining(w, id, ph').tasks;
    assert Next(c, w1, ev) == Joining(w, id, ph');
    Extend(c, most, w1, ev);
  }

  lemma WriteNext(c: Config, w: World, k: nat, p: Peer, drawn: string)
    requires k in w.tasks && w.tasks[k] == Checking(p, Writing(0))
    ensures var w' := Next(c, w, Advance(k, drawn));
            w'.store == Upsert(w.store, p, Request(drawn, c.ttl)) && w'.clock == w.clock &&
            w'.tasks == w.tasks[k := Checking(p, Answered(Challenge(drawn, c.ttl, true)))]
  {
  }

  /** The oldest check about to write writes. */
  lemma Leave(c: Config, most: nat, w: World, k: nat, j: nat) returns (w': World)
    requires Reaches(c, most, w) && Crowd(c, w, k, j) && 0 < j <= most
    ensures Reaches(c, most, w') && Crowd(c, w', k + 1, j - 1)
  {
    var ev := Advance(k, Name(k));
    w' := Next(c, w, ev);
    WriteNext(c, w, k, Nth(k), Name(k));
    FillOne(c, w.store, k);
    QueuedLeave(w.tasks, k, j, w'.tasks[k]);
    QueuedFlight(w'.tasks, k + 1, j - 1);
    Extend(c, most, w, ev);
  }

  lemma {:induction false} Fill(c: Config, most: nat, k: nat) returns (w: World)
    requires k < c.maxPending && c.ttl > 0 && most > 0
    ensures Reaches(c, most, w) && Crowd(c, w, k, 0)
  {
    if k == 0 {
      w := Start(0);
      assert InFlight(w.tasks, CH) == {};
      assert Runs(c, [w], []) && Bounded([w], CH, most);
    } else {
      w := Fill(c, most, k - 1);
      w := Join(c, most, w, k - 1, 0);
      w := Leave(c, most, w, k - 1, 1);
    }
  }

  lemma {:induction false} Gather(c: Config, most: nat, k: nat, j: nat) returns (w: World)
    requires k < c.maxPending && c.ttl > 0 && 0 <= j <= most && most > 0
    ensures Reaches(c, most, w) && Crowd(c, w, k, j)
    decreases j
  {
    if j == 0 {
      w := Fill(c, most, k);
    } else {
      w := Gather(c, most, k, j - 1);
      w := Join(c, most, w, k, j - 1);
    }
  }

  lemma {:induction false} Drain(c: Config, most: nat, w: World, k: nat, j: nat) returns (w': World)
    requires Reaches(c, most, w) && Crowd(c, w, k, j) && j <= most
    ensures Reaches(c, most, w') && Crowd(c, w', k + j, 0)
    decreases j
  {
    w' := w;
    if j > 0 {
      w' := Leave(c, most, w, k, j);
      w' := Drain(c, most, w', k + 1, j - 1);
    }
  }

  /** The bound is sharp for every cap and every concurrency: some run meets it exactly, so the
      documented cap itself holds exactly when at most one check is in flight. */
  lemma BoundReached(c: Config, most: nat) returns (w: World)
    requires c.maxPending > 0 && c.ttl > 0 && most > 0
    ensures Reaches(c, most, w) && |Live(w, CH)| == Bound(c, most)
    ensures |Live(w, CH)| <= c.maxPending <==> most == 1
  {
    w := Gather(c, most, c.maxPending - 1, most);
    w := Drain(c, most, w, c.maxPending - 1, most);
    FilledLive(c, w.store, c.maxPending - 1 + most);
  }
}
