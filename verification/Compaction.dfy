/** Context compaction: older turns are replaced by one summary message while the pinned system
    prefix, the latest user turns and the recent tail stay verbatim. */
module Compaction {
  import opened Strings
  import opened Transcript

  const MARKER := "<graphorin_compaction_summary"

  /** Messages of the trusted prefix: leading system messages that are not an earlier summary. */
  predicate Pinned(m: Message) {
    m.System? && !StartsWith(m.text, MARKER)
  }

  /** The length of the pinned prefix. */
  function Leading(ms: seq<Message>): (n: nat)
    ensures n <= |ms| && (forall i | 0 <= i < n :: Pinned(ms[i])) && (n < |ms| ==> !Pinned(ms[n]))
  {
    if ms == [] || !Pinned(ms[0]) then 0
    else
      var n := Leading(ms[1..]);
      assert forall i | 0 < i < 1 + n :: ms[i] == ms[1..][i - 1];
      1 + n
  }

  method CountLeadingSystemMessages(ms: seq<Message>) returns (n: nat)
    ensures n == Leading(ms)
    ensures n <= |ms| && forall i | 0 <= i < n :: ms[i].System? && !("<graphorin_compaction_summary" <= ms[i].text)
    ensures n < |ms| && ms[n].System? ==> "<graphorin_compaction_summary" <= ms[n].text
  {
    n := 0;
    assert ms[0..] == ms;
    while n < |ms| && Pinned(ms[n])
      invariant n <= |ms| && n + Leading(ms[n..]) == Leading(ms)
    {
      assert ms[n..][1..] == ms[n + 1..];
      n := n + 1;
    }
  }

  function UsersOf(ms: seq<Message>): seq<Message> {
    if ms == [] then []
    else UsersOf(ms[..|ms| - 1]) + (if ms[|ms| - 1].User? then [ms[|ms| - 1]] else [])
  }

  function LastN<T>(s: seq<T>, n: nat): seq<T> {
    if |s| <= n then s else s[|s| - n..]
  }

  /** The cut moves backward until the preserved tail starts on a non-tool message. */
  function CutPoint(body: seq<Message>, at: nat): (r: nat)
    requires at <= |body|
    ensures r <= at
    ensures r == 0 || r == |body| || !body[r].Tool?
    ensures forall i | r < i <= at :: i < |body| && body[i].Tool?
  {
    if at > 0 && at < |body| && body[at].Tool? then CutPoint(body, at - 1) else at
  }

  function OlderCount(body: seq<Message>, recent: nat): (r: nat)
    ensures r <= |body|
  {
    CutPoint(body, Positional(body, recent))
  }

  function Positional(body: seq<Message>, recent: nat): nat {
    if |body| <= recent then 0 else |body| - recent
  }

  method SnapBoundary(body: seq<Message>, recent: nat) returns (olderCount: nat)
    ensures olderCount == OlderCount(body, recent)
    ensures olderCount <= Positional(body, recent)
    ensures olderCount == 0 || olderCount == |body| || !body[olderCount].Tool?
    ensures forall i | olderCount < i <= Positional(body, recent) :: i < |body| && body[i].Tool?
  {
    olderCount := if |body| <= recent then 0 else |body| - recent;
    ghost var start := olderCount;
    while olderCount > 0 && olderCount < |body| && body[olderCount].Tool?
      invariant olderCount <= |body| && CutPoint(body, olderCount) == CutPoint(body, start)
    {
      olderCount := olderCount - 1;
    }
  }

  /** Splits the older part into the user turns carried verbatim and the turns to summarize. */
  method CarryUsers(older: seq<Message>, keep: nat) returns (carried: seq<Message>, dropped: nat)
    ensures carried == (if LastN(UsersOf(older), keep) == older then [] else LastN(UsersOf(older), keep))
    ensures dropped + |carried| == |older|
    ensures older != [] ==> dropped > 0
  {
    carried, dropped := [], 0;
    var i := |older|;
    UsersBound(older);
    assert older[..i] == older;
    while i > 0
      invariant 0 <= i <= |older|
      invariant dropped + |carried| == |older| - i
      invariant |carried| <= keep
      invariant |carried| < keep || i == |older| ==> UsersOf(older[..i]) + carried == UsersOf(older)
      invariant |carried| == keep ==> carried == LastN(UsersOf(older), keep)
    {
      i := i - 1;
      UsersSnoc(older, i);
      if older[i].User? && |carried| < keep {
        Prepend(UsersOf(older[..i]), older[i], carried);
        LastOf(UsersOf(older[..i]), [older[i]] + carried, UsersOf(older));
        carried := [older[i]] + carried;
      } else {
        dropped := dropped + 1;
      }
    }
    assert carried == LastN(UsersOf(older), keep);
    if carried != [] && dropped == 0 {
      UsersAll(older);
      carried, dropped := [], |older|;
    }
  }

  lemma UsersSnoc(ms: seq<Message>, i: nat)
    requires i < |ms|
    ensures UsersOf(ms[..i + 1]) == UsersOf(ms[..i]) + (if ms[i].User? then [ms[i]] else [])
  {
    assert ms[..i + 1][..i] == ms[..i];
  }

  lemma Prepend<T>(a: seq<T>, x: T, b: seq<T>)
    ensures a + ([x] + b) == a + [x] + b
  {
  }

  lemma LastOf<T>(a: seq<T>, b: seq<T>, all: seq<T>)
    requires a + b == all
    ensures LastN(all, |b|) == b
  {
  }

  lemma {:induction false} UsersBound(ms: seq<Message>)
    ensures |UsersOf(ms)| <= |ms|
  {
    if ms != [] {
      UsersBound(ms[..|ms| - 1]);
    }
  }

  /** Only a user-only window has as many user turns as turns. */
  lemma {:induction false} UsersAll(ms: seq<Message>)
    ensures |UsersOf(ms)| == |ms| <==> UsersOf(ms) == ms
  {
    if ms != [] {
      UsersAll(ms[..|ms| - 1]);
      UsersBound(ms[..|ms| - 1]);
      assert ms == ms[..|ms| - 1] + [ms[|ms| - 1]];
    }
  }

  datatype Compacted = NothingToTrim | Trimmed(messages: seq<Message>)

  function Carried(older: seq<Message>, keep: nat): seq<Message> {
    var last := LastN(UsersOf(older), keep);
    if last == older then [] else last
  }

  /** The whole trim of one compaction, pinned prefix and re-anchored essentials included. */
  function Splice(ms: seq<Message>, prefix: nat, recent: nat, keep: nat, summary: string, essentials: string): Compacted
    requires prefix <= |ms|
  {
    var body := ms[prefix..];
    var cut := OlderCount(body, recent);
    if cut == 0 then NothingToTrim
    else
      Trimmed(ms[..prefix] + [System(summary)] + Carried(body[..cut], keep) + body[cut..]
              + (if essentials == "" then [] else [System(essentials)]))
  }

  /** A cut of the transcript behind the pinned prefix that leaves the last `recent` messages and does not
      fall on a tool message, and no later one does either. */
  ghost predicate CutAt(ms: seq<Message>, prefix: nat, recent: nat, k: nat) {
    && prefix < k && k + recent <= |ms| && (k < |ms| ==> !ms[k].Tool?)
    && forall j | k < j && j + recent <= |ms| :: j < |ms| && ms[j].Tool?
  }

  /** Increasing positions of user turns. */
  ghost predicate Turns(ms: seq<Message>, ps: seq<nat>) {
    && (forall i, j | 0 <= i < j < |ps| :: ps[i] < ps[j])
    && (forall i | 0 <= i < |ps| :: ps[i] < |ms| && ms[ps[i]].User?)
  }

  /** Positions of the last user turns, `keep` of them or all there are. */
  ghost predicate LastTurns(older: seq<Message>, keep: nat, ps: seq<nat>) {
    && |ps| <= keep && Turns(older, ps)
    && forall i | 0 <= i < |older| && older[i].User? :: i in ps || (|ps| == keep && forall p | p in ps :: i < p)
  }

  function Pick(ms: seq<Message>, ps: seq<nat>): seq<Message>
    requires forall i | 0 <= i < |ps| :: ps[i] < |ms|
  {
    seq(|ps|, i requires 0 <= i < |ps| => ms[ps[i]])
  }

  /** Those turns are carried, unless they are the whole older part. */
  ghost predicate CarriedFrom(older: seq<Message>, keep: nat, carried: seq<Message>) {
    exists ps: seq<nat> ::
      LastTurns(older, keep, ps) && carried == if |ps| == |older| then [] else Pick(older, ps)
  }

  /** The trimmed transcript: the prefix, the summary, the carried turns, the untouched rest behind the
      cut, and the essentials if there are any. */
  ghost predicate TrimmedAt(
      ms: seq<Message>, prefix: nat, keep: nat, summary: string, essentials: string, k: nat, carried: seq<Message>,
      out: seq<Message>)
  {
    && prefix <= k <= |ms| && CarriedFrom(ms[prefix..k], keep, carried)
    && out == ms[..prefix] + [System(summary)] + carried + ms[k..] +
              (if essentials == "" then [] else [System(essentials)])
  }

  /** There is nothing to trim exactly when no cut is left; else the transcript is trimmed at the last one. */
  ghost predicate Trimming(
      ms: seq<Message>, prefix: nat, recent: nat, keep: nat, summary: string, essentials: string, r: Compacted)
  {
    match r
    case NothingToTrim => forall k: nat :: !CutAt(ms, prefix, recent, k)
    case Trimmed(out) =>
      exists k: nat, carried: seq<Message> ::
        CutAt(ms, prefix, recent, k) && TrimmedAt(ms, prefix, keep, summary, essentials, k, carried, out)
  }

  // ---------------------------------------------------------------- what the splice is

  lemma MoreTurns(ms: seq<Message>, qs: seq<nat>)
    requires ms != [] && Turns(ms[..|ms| - 1], qs)
    ensures Turns(ms, qs) && Pick(ms, qs) == Pick(ms[..|ms| - 1], qs)
    ensures var n := |ms| - 1;
            ms[n].User? ==> Turns(ms, qs + [n]) && Pick(ms, qs + [n]) == Pick(ms, qs) + [ms[n]]
  {
    var front := ms[..|ms| - 1];
    assert forall i | 0 <= i < |qs| :: front[qs[i]] == ms[qs[i]];
  }

  lemma {:induction false} UserPositions(ms: seq<Message>) returns (ps: seq<nat>)
    ensures Turns(ms, ps) && (forall i | 0 <= i < |ms| && ms[i].User? :: i in ps) && UsersOf(ms) == Pick(ms, ps)
  {
    ps := [];
    if ms != [] {
      var n := |ms| - 1;
      var qs := UserPositions(ms[..n]);
      ps := if ms[n].User? then qs + [n] else qs;
      MoreTurns(ms, qs);
      AllTurns(ms, qs);
    }
  }

  lemma AllTurns(ms: seq<Message>, qs: seq<nat>)
    requires ms != [] && forall i | 0 <= i < |ms| - 1 && ms[..|ms| - 1][i].User? :: i in qs
    ensures var n := |ms| - 1;
            forall i | 0 <= i < |ms| && ms[i].User? :: i in if ms[n].User? then qs + [n] else qs
  {
    var n := |ms| - 1;
    forall i | 0 <= i < |ms| && ms[i].User?
      ensures i in if ms[n].User? then qs + [n] else qs
    {
      if i < n {
        assert ms[..n][i] == ms[i];
      }
    }
  }

  lemma LastPositions(older: seq<Message>, keep: nat, all: seq<nat>) returns (ps: seq<nat>)
    requires Turns(older, all) && forall i | 0 <= i < |older| && older[i].User? :: i in all
    ensures LastTurns(older, keep, ps) && LastN(Pick(older, all), keep) == Pick(older, ps)
  {
    if |all| <= keep {
      ps := all;
    } else {
      var cut := |all| - keep;
      ps := all[cut..];
      forall i | 0 <= i < |older| && older[i].User?
        ensures i in ps || forall p | p in ps :: i < p
      {
        var k :| 0 <= k < |all| && all[k] == i;
        if k >= cut {
          assert ps[k - cut] == i;
        }
      }
    }
  }

  lemma CarriedExactly(older: seq<Message>, keep: nat)
    ensures CarriedFrom(older, keep, Carried(older, keep))
  {
    var all := UserPositions(older);
    var ps := LastPositions(older, keep, all);
    PickedAll(older, ps);
    assert LastTurns(older, keep, ps);
  }

  /** Increasing positions pick the whole only if there are as many. */
  lemma PickedAll(ms: seq<Message>, ps: seq<nat>)
    requires (forall i, j | 0 <= i < j < |ps| :: ps[i] < ps[j]) && forall i | 0 <= i < |ps| :: ps[i] < |ms|
    ensures |ps| <= |ms| && (Pick(ms, ps) == ms <==> |ps| == |ms|)
  {
    PositionsGrow(ps);
    assert ps != [] ==> ps[|ps| - 1] >= |ps| - 1;
    if |ps| == |ms| {
      forall i | 0 <= i < |ms|
        ensures ps[i] == i
      {
        PositionsDense(ps, |ms|, i);
      }
      assert Pick(ms, ps) == ms;
    }
  }

  lemma {:induction false} PositionsGrow(ps: seq<nat>)
    requires forall i, j | 0 <= i < j < |ps| :: ps[i] < ps[j]
    ensures forall i | 0 <= i < |ps| :: ps[i] >= i
  {
    if ps != [] {
      var n := |ps| - 1;
      PositionsGrow(ps[..n]);
      assert forall i | 0 <= i < n :: ps[..n][i] == ps[i];
      assert n > 0 ==> ps[n - 1] < ps[n];
    }
  }

  lemma {:induction false} PositionsDense(ps: seq<nat>, m: nat, i: nat)
    requires (forall i, j | 0 <= i < j < |ps| :: ps[i] < ps[j]) && (forall i | 0 <= i < |ps| :: ps[i] < m)
    requires |ps| == m && i < m
    ensures ps[i] == i
    decreases m - i
  {
    PositionsGrow(ps);
    if i + 1 < m {
      PositionsDense(ps, m, i + 1);
    }
  }

  /** A cut of the body is a cut of the transcript. */
  lemma CutExactly(ms: seq<Message>, prefix: nat, recent: nat)
    requires prefix <= |ms|
    ensures var cut := OlderCount(ms[prefix..], recent);
            && (cut == 0 ==> forall k: nat :: !CutAt(ms, prefix, recent, k))
            && (cut > 0 ==> CutAt(ms, prefix, recent, prefix + cut))
  {
    var body := ms[prefix..];
    var cut := OlderCount(body, recent);
    forall k: nat | prefix < k && k + recent <= |ms| && k - prefix > cut
      ensures k < |ms| && ms[k].Tool?
    {
      assert k - prefix <= Positional(body, recent);
      assert k - prefix < |body| && body[k - prefix] == ms[k];
    }
    if 0 < cut < |body| {
      assert body[cut] == ms[prefix + cut];
    }
  }

  /** For every transcript, prefix, tail length, number of carried turns, summary and essentials. */
  lemma SpliceExactly(ms: seq<Message>, prefix: nat, recent: nat, keep: nat, summary: string, essentials: string)
    requires prefix <= |ms|
    ensures Trimming(
              ms, prefix, recent, keep, summary, essentials, Splice(ms, prefix, recent, keep, summary, essentials))
  {
    var cut := OlderCount(ms[prefix..], recent);
    CutExactly(ms, prefix, recent);
    if cut > 0 {
      TrimmedThere(ms, prefix, recent, keep, summary, essentials, prefix + cut);
    }
  }

  lemma TrimmedThere(
      ms: seq<Message>, prefix: nat, recent: nat, keep: nat, summary: string, essentials: string, k: nat)
    requires prefix < k <= |ms| && OlderCount(ms[prefix..], recent) == k - prefix
    ensures Splice(ms, prefix, recent, keep, summary, essentials).Trimmed?
    ensures TrimmedAt(ms, prefix, keep, summary, essentials, k, Carried(ms[prefix..k], keep),
                      Splice(ms, prefix, recent, keep, summary, essentials).messages)
  {
    var body := ms[prefix..];
    assert body[..k - prefix] == ms[prefix..k] && body[k - prefix..] == ms[k..];
    CarriedExactly(ms[prefix..k], keep);
  }

  method Compact(ms: seq<Message>, prefix: nat, recent: nat, keep: nat, summary: string, essentials: string)
    returns (r: Compacted)
    requires prefix <= |ms| && forall i | 0 <= i < prefix :: ms[i].System?
    ensures r == Splice(ms, prefix, recent, keep, summary, essentials)
    ensures Trimming(ms, prefix, recent, keep, summary, essentials, r)
    ensures r.Trimmed? && Grouped(ms) ==> Grouped(r.messages)
    ensures r.Trimmed? ==> ms[..prefix] <= r.messages
  {
    r := Rebuild(ms, prefix, recent, keep, summary, essentials);
    SpliceExactly(ms, prefix, recent, keep, summary, essentials);
    if r.Trimmed? && Grouped(ms) {
      SpliceKeepsGrouping(ms, prefix, recent, keep, summary, essentials);
    }
  }

  method Rebuild(ms: seq<Message>, prefix: nat, recent: nat, keep: nat, summary: string, essentials: string)
    returns (r: Compacted)
    requires prefix <= |ms|
    ensures r == Splice(ms, prefix, recent, keep, summary, essentials)
    ensures r.Trimmed? ==> ms[..prefix] <= r.messages
  {
    var body := ms[prefix..];
    var olderCount := SnapBoundary(body, recent);
    var carried, dropped := CarryUsers(body[..olderCount], keep);
    if dropped == 0 {
      return NothingToTrim;
    }
    var rebuilt := ms[..prefix] + [System(summary)] + carried + body[olderCount..];
    if essentials != "" {
      rebuilt := rebuilt + [System(essentials)];
    }
    r := Trimmed(rebuilt);
    assert essentials == "" ==> rebuilt + [] == rebuilt;
  }

  lemma {:induction false} PlainIsGrouped(ms: seq<Message>)
    requires forall m | m in ms :: m.System? || m.User?
    ensures ScanAll(ms) == Group({}, {})
  {
    if ms != [] {
      PlainIsGrouped(ms[..|ms| - 1]);
      assert ms[|ms| - 1] in ms;
    }
  }

  lemma {:induction false} UsersArePlain(ms: seq<Message>)
    ensures forall m | m in UsersOf(ms) :: m.User?
  {
    if ms != [] {
      UsersArePlain(ms[..|ms| - 1]);
    }
  }

  lemma TailGrouped(ms: seq<Message>, k: nat)
    requires Grouped(ms) && k <= |ms| && (k < |ms| ==> !ms[k].Tool?)
    ensures Grouped(ms[..k]) && Grouped(ms[k..])
  {
    if k < |ms| {
      CutAtNonTool(ms, k);
    } else {
      assert ms[..k] == ms && ms[k..] == [];
    }
  }

  lemma FourGrouped(a: seq<Message>, b: seq<Message>, c: seq<Message>, d: seq<Message>)
    requires Grouped(a) && Grouped(b) && Grouped(c) && Grouped(d)
    ensures Grouped(a + b + c + d)
  {
    if b != [] { GroupedStartsClean(b); }
    if c != [] { GroupedStartsClean(c); }
    if d != [] { GroupedStartsClean(d); }
    GroupedConcat(a, b);
    GroupedConcat(a + b, c);
    GroupedConcat(a + b + c, d);
  }

  lemma PinnedPrefixEndsGroup(ms: seq<Message>, prefix: nat)
    requires prefix < |ms| && Grouped(ms) && forall i | 0 <= i < prefix :: ms[i].System?
    ensures !ms[prefix].Tool?
  {
    PlainIsGrouped(ms[..prefix]);
    assert ms == ms[..prefix] + ms[prefix..];
    ScanFromConcat(Group({}, {}), ms[..prefix], ms[prefix..]);
    GroupedStartsClean(ms[prefix..]);
  }

  /** Compaction keeps a grouped transcript grouped. */
  lemma SpliceKeepsGrouping(ms: seq<Message>, prefix: nat, recent: nat, keep: nat, summary: string, essentials: string)
    requires prefix <= |ms| && Grouped(ms) && forall i | 0 <= i < prefix :: ms[i].System?
    requires Splice(ms, prefix, recent, keep, summary, essentials).Trimmed?
    ensures Grouped(Splice(ms, prefix, recent, keep, summary, essentials).messages)
  {
    var body := ms[prefix..];
    var cut := OlderCount(body, recent);
    PinnedPrefixEndsGroup(ms, prefix);
    TailGrouped(ms, prefix);
    TailGrouped(body, cut);
    var middle := [System(summary)] + Carried(body[..cut], keep);
    UsersArePlain(body[..cut]);
    PlainIsGrouped(middle);
    var end := if essentials == "" then [] else [System(essentials)];
    PlainIsGrouped(end);
    FourGrouped(ms[..prefix], middle, body[cut..], end);
    Regroup(ms[..prefix], [System(summary)], Carried(body[..cut], keep));
  }

  lemma Regroup<T>(a: seq<T>, b: seq<T>, c: seq<T>)
    ensures a + (b + c) == a + b + c
  {
  }

  ghost predicate Plain(ms: seq<Message>) {
    forall m | m in ms :: m.System? || m.User?
  }

  lemma PlainFrontAnnounces(a: seq<Message>, b: seq<Message>, k: nat, id: CallId)
    requires Plain(a) && k <= |b|
    ensures AnnouncedBefore(a + b, |a| + k, id) <==> AnnouncedBefore(b, k, id)
  {
    var all := a + b;
    forall i | 0 <= i < |a|
      ensures Announces(all[i]) == []
    {
      assert a[i] in a;
    }
    assert forall i | 0 <= i < |b| :: all[|a| + i] == b[i];
    if AnnouncedBefore(b, k, id) {
      var i :| 0 <= i < k && id in Announces(b[i]);
      assert id in Announces(all[|a| + i]);
    }
    if AnnouncedBefore(all, |a| + k, id) {
      var i :| 0 <= i < |a| + k && id in Announces(all[i]);
      assert id in Announces(b[i - |a|]);
    }
  }

  lemma PlainFrontOrphans(a: seq<Message>, b: seq<Message>)
    requires Plain(a)
    ensures NoOrphan(a + b) <==> NoOrphan(b)
  {
    var all := a + b;
    forall i | 0 <= i < |a|
      ensures !all[i].Tool?
    {
      assert a[i] in a;
    }
    forall j | 0 <= j < |b| && b[j].Tool?
      ensures AnnouncedBefore(all, |a| + j, all[|a| + j].callId) <==> AnnouncedBefore(b, j, b[j].callId)
    {
      PlainFrontAnnounces(a, b, j, b[j].callId);
    }
    if NoOrphan(b) {
      forall i | 0 <= i < |all| && all[i].Tool?
        ensures AnnouncedBefore(all, i, all[i].callId)
      {
        assert all[i] == b[i - |a|];
      }
    }
    if NoOrphan(all) {
      forall j | 0 <= j < |b| && b[j].Tool?
        ensures AnnouncedBefore(b, j, b[j].callId)
      {
        assert all[|a| + j] == b[j];
      }
    }
  }

  /** System and user messages in front change nothing for the two-set pass. */
  lemma PlainFrontAccepted(a: seq<Message>, b: seq<Message>)
    requires Plain(a)
    ensures Accepted(a + b) <==> Accepted(b)
  {
    PlainFrontOrphans(a, b);
    AcceptedByIds(a + b);
    AcceptedByIds(b);
    forall id
      ensures Announced(a + b, id) <==> Announced(b, id)
      ensures ResolvedSomewhere(a + b, id) <==> ResolvedSomewhere(b, id)
    {
      PlainFrontAnnounces(a, b, |b|, id);
      assert Tool(id) !in a;
    }
  }

  /** Nor does one behind. */
  lemma PlainLastAccepted(b: seq<Message>, m: Message)
    requires m.System? || m.User?
    ensures Accepted(b + [m]) <==> Accepted(b)
  {
    OrphanGrows(b, m);
    AcceptedByIds(b + [m]);
    AcceptedByIds(b);
    forall id
      ensures Announced(b + [m], id) <==> Announced(b, id)
      ensures ResolvedSomewhere(b + [m], id) <==> ResolvedSomewhere(b, id)
    {
      AnnouncedGrows(b, m, id);
    }
  }

  /** The preserved tail of a compaction. */
  function TailOf(ms: seq<Message>, prefix: nat, recent: nat): seq<Message>
    requires prefix <= |ms|
  {
    ms[prefix..][OlderCount(ms[prefix..], recent)..]
  }

  /** For every window, cut and carried turns, the compacted transcript is acceptable exactly when
      the preserved tail is acceptable on its own. */
  lemma SpliceAcceptedExactly(
      ms: seq<Message>, prefix: nat, recent: nat, keep: nat, summary: string, essentials: string)
    requires prefix <= |ms| && forall i | 0 <= i < prefix :: ms[i].System?
    requires Splice(ms, prefix, recent, keep, summary, essentials).Trimmed?
    ensures Accepted(Splice(ms, prefix, recent, keep, summary, essentials).messages) <==>
            Accepted(TailOf(ms, prefix, recent))
  {
    var body := ms[prefix..];
    var cut := OlderCount(body, recent);
    var tail := body[cut..];
    var front := ms[..prefix] + [System(summary)] + Carried(body[..cut], keep);
    UsersArePlain(body[..cut]);
    assert Plain(front);
    var end := if essentials == "" then [] else [System(essentials)];
    assert front + tail + [] == front + tail;
    PlainFrontAccepted(front, tail);
    PlainLastAccepted(front + tail, System(essentials));
    assert Splice(ms, prefix, recent, keep, summary, essentials).messages == front + tail + end;
  }

  /** A transcript that is acceptable but not grouped can come out of compaction with an orphan. */
  lemma UngroupedSeedBreaks()
    ensures var ms := [User("a"), Assistant("", ["x"]), User("b"), Tool("x")];
            Accepted(ms) && Splice(ms, 0, 2, 0, "s", "").Trimmed? &&
            !Accepted(Splice(ms, 0, 2, 0, "s", "").messages)
  {
    var ms := [User("a"), Assistant("", ["x"]), User("b"), Tool("x")];
    assert "x" in Announces(ms[1]) && AnnouncedBefore(ms, 3, "x");
    assert ms[3] == Tool("x") && ResolvedSomewhere(ms, "x");
    var out := [System("s"), User("b"), Tool("x")];
    assert ms[0..] == ms;
    assert LastN(UsersOf(ms[..2]), 0) == [];
    assert Splice(ms, 0, 2, 0, "s", "").messages == out;
    assert out[2] == Tool("x") && !AnnouncedBefore(out, 2, "x");
  }
}
