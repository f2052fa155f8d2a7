/** Under every interleaving, how a peer came to be paired: its code was issued, then looked up by an
    approval, found unexpired at that approval's clock reading, and the peer not revoked since. */
module PairingRaceHistory {
  import opened Options
  import opened Pairing
  import opened PairingRace

  // ---------------------------------------------------------------- the events

  /** Step `i` writes a request for `p`. */
  ghost predicate Writes(c: Config, ws: seq<World>, evs: seq<Event>, i: nat, p: Peer, code: string, e: int) {
    && i < |evs| && i < |ws| && evs[i].Advance? && evs[i].id in ws[i].tasks && evs[i].drawn == code
    && ws[i].tasks[evs[i].id].Checking? && ws[i].tasks[evs[i].id].peer == p && ws[i].tasks[evs[i].id].phase.Writing?
    && e == ws[i].tasks[evs[i].id].phase.at + c.ttl
  }

  predicate At(ws: seq<World>, evs: seq<Event>, k: nat, id: nat) {
    k < |evs| && k < |ws| && evs[k].Advance? && evs[k].id == id && id in ws[k].tasks && ws[k].tasks[id].Approving?
  }

  /** At step `j` approval `id` of `code` finds the request of `p`. */
  ghost predicate LooksUp(ws: seq<World>, evs: seq<Event>, j: nat, id: nat, p: Peer, code: string, e: int) {
    && At(ws, evs, j, id) && ws[j].tasks[id].stage.Seeking?
    && ws[j].tasks[id].code == code && ws[j].tasks[id].channel == p.channel
    && p in ws[j].store.requests && ws[j].store.requests[p] == Request(code, e)
  }

  /** At step `k` approval `id` reads the clock and the code has not expired. */
  ghost predicate InTime(ws: seq<World>, evs: seq<Event>, k: nat, id: nat, p: Peer, e: int) {
    At(ws, evs, k, id) && ws[k].tasks[id].stage == Timing(p, e) && e > ws[k].clock
  }

  ghost predicate Pairs(ws: seq<World>, evs: seq<Event>, l: nat, id: nat, p: Peer) {
    At(ws, evs, l, id) && ws[l].tasks[id].stage == Adding(p)
  }

  // ---------------------------------------------------------------- what must have happened before `n`

  ghost predicate Issued(c: Config, ws: seq<World>, evs: seq<Event>, n: nat, p: Peer, code: string, e: int) {
    exists i: nat :: i < n && Writes(c, ws, evs, i, p, code, e)
  }

  ghost predicate Found(c: Config, ws: seq<World>, evs: seq<Event>, n: nat, id: nat, p: Peer, code: string, e: int) {
    exists j: nat :: j < n && LooksUp(ws, evs, j, id, p, code, e) && Issued(c, ws, evs, j, p, code, e)
  }

  ghost predicate Confirmed(
      c: Config, ws: seq<World>, evs: seq<Event>, n: nat, id: nat, p: Peer, code: string, e: int) {
    exists k: nat :: k < n && InTime(ws, evs, k, id, p, e) && Found(c, ws, evs, k, id, p, code, e)
  }

  ghost predicate Granted(
      c: Config, ws: seq<World>, evs: seq<Event>, n: nat, p: Peer, l: nat, id: nat, code: string, e: int) {
    && l < n <= |evs| && Pairs(ws, evs, l, id, p) && Confirmed(c, ws, evs, l, id, p, code, e)
    && forall q | l < q < n :: evs[q] != RevokePeer(p)
  }

  ghost predicate Authorised(c: Config, ws: seq<World>, evs: seq<Event>, n: nat, p: Peer) {
    exists l: nat, id: nat, code: string, e: int :: Granted(c, ws, evs, n, p, l, id, code, e)
  }

  // ---------------------------------------------------------------- invariant

  ghost predicate StageTraced(c: Config, ws: seq<World>, evs: seq<Event>, n: nat, id: nat, t: Task) {
    t.Approving? ==>
      match t.stage
      case Deleting(p, e) => Found(c, ws, evs, n, id, p, t.code, e)
      case Timing(p, e) => Found(c, ws, evs, n, id, p, t.code, e)
      case Adding(p) => exists e: int :: Confirmed(c, ws, evs, n, id, p, t.code, e)
      case _ => true
  }

  ghost predicate RowsTraced(c: Config, ws: seq<World>, evs: seq<Event>, n: nat, s: Store) {
    forall p | p in s.requests :: Issued(c, ws, evs, n, p, s.requests[p].code, s.requests[p].expires)
  }

  ghost predicate Traced(c: Config, ws: seq<World>, evs: seq<Event>, n: nat, w: World) {
    && RowsTraced(c, ws, evs, n, w.store)
    && (forall id | id in w.tasks :: StageTraced(c, ws, evs, n, id, w.tasks[id]))
    && (forall p | p in w.store.paired :: Authorised(c, ws, evs, n, p))
  }

  lemma FoundLater(c: Config, ws: seq<World>, evs: seq<Event>, n: nat, id: nat, p: Peer, code: string, e: int)
    requires Found(c, ws, evs, n, id, p, code, e)
    ensures Found(c, ws, evs, n + 1, id, p, code, e)
  {
    var j: nat :| j < n && LooksUp(ws, evs, j, id, p, code, e) && Issued(c, ws, evs, j, p, code, e);
    assert j < n + 1;
  }

  lemma ConfirmedLater(c: Config, ws: seq<World>, evs: seq<Event>, n: nat, id: nat, p: Peer, code: string, e: int)
    requires Confirmed(c, ws, evs, n, id, p, code, e)
    ensures Confirmed(c, ws, evs, n + 1, id, p, code, e)
  {
    var k: nat :| k < n && InTime(ws, evs, k, id, p, e) && Found(c, ws, evs, k, id, p, code, e);
    assert k < n + 1;
  }

  lemma StageLater(c: Config, ws: seq<World>, evs: seq<Event>, n: nat, id: nat, t: Task)
    requires StageTraced(c, ws, evs, n, id, t)
    ensures StageTraced(c, ws, evs, n + 1, id, t)
  {
    if t.Approving? {
      match t.stage {
        case Deleting(p, e) => FoundLater(c, ws, evs, n, id, p, t.code, e);
        case Timing(p, e) => FoundLater(c, ws, evs, n, id, p, t.code, e);
        case Adding(p) =>
          var e: int :| Confirmed(c, ws, evs, n, id, p, t.code, e);
          ConfirmedLater(c, ws, evs, n, id, p, t.code, e);
        case _ =>
      }
    }
  }

  lemma RowsLater(c: Config, ws: seq<World>, evs: seq<Event>, n: nat, s: Store, s': Store)
    requires RowsTraced(c, ws, evs, n, s)
    requires forall p | p in s'.requests :: p in s.requests && s'.requests[p] == s.requests[p]
    ensures RowsTraced(c, ws, evs, n + 1, s')
  {
    forall p | p in s'.requests
      ensures Issued(c, ws, evs, n + 1, p, s'.requests[p].code, s'.requests[p].expires)
    {
      var i: nat :| i < n && Writes(c, ws, evs, i, p, s.requests[p].code, s.requests[p].expires);
      assert i < n + 1;
    }
  }

  lemma AuthorisedLater(c: Config, ws: seq<World>, evs: seq<Event>, n: nat, p: Peer)
    requires n < |evs| && Authorised(c, ws, evs, n, p) && evs[n] != RevokePeer(p)
    ensures Authorised(c, ws, evs, n + 1, p)
  {
    var l: nat, id: nat, code: string, e: int :| Granted(c, ws, evs, n, p, l, id, code, e);
    assert Granted(c, ws, evs, n + 1, p, l, id, code, e);
  }

  // ---------------------------------------------------------------- one step

  lemma WriteTraced(c: Config, ws: seq<World>, evs: seq<Event>, n: nat, id: nat)
    requires n < |evs| && n < |ws| && evs[n].Advance? && evs[n].id == id && id in ws[n].tasks
    requires ws[n].tasks[id].Checking? && ws[n].tasks[id].phase.Writing? && RowsTraced(c, ws, evs, n, ws[n].store)
    ensures RowsTraced(c, ws, evs, n + 1, AdvanceTask(c, ws[n], id, evs[n].drawn).store)
  {
    var w, t := ws[n], ws[n].tasks[id];
    var r := Request(evs[n].drawn, t.phase.at + c.ttl);
    var s' := Upsert(w.store, t.peer, r);
    assert Writes(c, ws, evs, n, t.peer, r.code, r.expires);
    forall p | p in s'.requests
      ensures Issued(c, ws, evs, n + 1, p, s'.requests[p].code, s'.requests[p].expires)
    {
      if p == t.peer {
        assert n < n + 1;
      } else {
        var i: nat :| i < n && Writes(c, ws, evs, i, p, w.store.requests[p].code, w.store.requests[p].expires);
        assert i < n + 1;
      }
    }
  }

  lemma CheckTraced(c: Config, ws: seq<World>, evs: seq<Event>, n: nat, id: nat)
    requires n < |evs| && n < |ws| && evs[n].Advance? && evs[n].id == id && id in ws[n].tasks
    requires ws[n].tasks[id].Checking? && Traced(c, ws, evs, n, ws[n])
    ensures Traced(c, ws, evs, n + 1, AdvanceTask(c, ws[n], id, evs[n].drawn))
  {
    var w, w' := ws[n], AdvanceTask(c, ws[n], id, evs[n].drawn);
    if w.tasks[id].phase.Writing? {
      WriteTraced(c, ws, evs, n, id);
    } else {
      RowsLater(c, ws, evs, n, w.store, w'.store);
    }
    OthersTraced(c, ws, evs, n, w', id);
    PairedTraced(c, ws, evs, n, w');
  }

  /** Tasks that do not move keep their trace. */
  lemma OthersTraced(c: Config, ws: seq<World>, evs: seq<Event>, n: nat, w': World, id: nat)
    requires n < |ws| && Traced(c, ws, evs, n, ws[n])
    requires id in w'.tasks && StageTraced(c, ws, evs, n + 1, id, w'.tasks[id])
    requires forall k | k in w'.tasks && k != id :: k in ws[n].tasks && w'.tasks[k] == ws[n].tasks[k]
    ensures forall k | k in w'.tasks :: StageTraced(c, ws, evs, n + 1, k, w'.tasks[k])
  {
    forall k | k in w'.tasks && k != id
      ensures StageTraced(c, ws, evs, n + 1, k, w'.tasks[k])
    {
      StageLater(c, ws, evs, n, k, ws[n].tasks[k]);
    }
  }

  lemma PairedTraced(c: Config, ws: seq<World>, evs: seq<Event>, n: nat, w': World)
    requires n < |ws| && n < |evs| && Traced(c, ws, evs, n, ws[n])
    requires forall p | p in w'.store.paired :: p in ws[n].store.paired && evs[n] != RevokePeer(p)
    ensures forall p | p in w'.store.paired :: Authorised(c, ws, evs, n + 1, p)
  {
    forall p | p in w'.store.paired
      ensures Authorised(c, ws, evs, n + 1, p)
    {
      AuthorisedLater(c, ws, evs, n, p);
    }
  }

  lemma SeekTraced(c: Config, ws: seq<World>, evs: seq<Event>, n: nat, id: nat)
    requires At(ws, evs, n, id) && ws[n].tasks[id].stage.Seeking? && Traced(c, ws, evs, n, ws[n])
    ensures StageTraced(c, ws, evs, n + 1, id, AdvanceTask(c, ws[n], id, evs[n].drawn).tasks[id])
  {
    var w, t := ws[n], ws[n].tasks[id];
    match FindByCode(w.store, t.channel, t.code) {
      case None =>
      case Some(q) =>
        assert HoldsCode(w.store, t.channel, t.code, q);
        assert LooksUp(ws, evs, n, id, q, t.code, w.store.requests[q].expires);
        assert n < n + 1;
    }
  }

  lemma TimeTraced(c: Config, ws: seq<World>, evs: seq<Event>, n: nat, id: nat)
    requires At(ws, evs, n, id) && ws[n].tasks[id].stage.Timing? && Traced(c, ws, evs, n, ws[n])
    ensures StageTraced(c, ws, evs, n + 1, id, AdvanceTask(c, ws[n], id, evs[n].drawn).tasks[id])
  {
    var w, t := ws[n], ws[n].tasks[id];
    assert StageTraced(c, ws, evs, n, id, t);
    if t.stage.expires > w.clock {
      assert InTime(ws, evs, n, id, t.stage.found, t.stage.expires);
      assert n < n + 1;
      assert Confirmed(c, ws, evs, n + 1, id, t.stage.found, t.code, t.stage.expires);
    }
  }

  lemma AddTraced(c: Config, ws: seq<World>, evs: seq<Event>, n: nat, id: nat)
    requires At(ws, evs, n, id) && ws[n].tasks[id].stage.Adding? && Traced(c, ws, evs, n, ws[n])
    ensures Authorised(c, ws, evs, n + 1, ws[n].tasks[id].stage.found)
  {
    var t := ws[n].tasks[id];
    assert StageTraced(c, ws, evs, n, id, t);
    var e: int :| Confirmed(c, ws, evs, n, id, t.stage.found, t.code, e);
    assert Granted(c, ws, evs, n + 1, t.stage.found, n, id, t.code, e);
  }

  lemma ApprovalTraced(c: Config, ws: seq<World>, evs: seq<Event>, n: nat, id: nat)
    requires At(ws, evs, n, id) && Traced(c, ws, evs, n, ws[n])
    ensures Traced(c, ws, evs, n + 1, AdvanceTask(c, ws[n], id, evs[n].drawn))
  {
    var w, w' := ws[n], AdvanceTask(c, ws[n], id, evs[n].drawn);
    var t := w.tasks[id];
    RowsLater(c, ws, evs, n, w.store, w'.store);
    assert StageTraced(c, ws, evs, n + 1, id, w'.tasks[id]) by {
      assert StageTraced(c, ws, evs, n, id, t);
      match t.stage {
        case Seeking => SeekTraced(c, ws, evs, n, id);
        case Deleting(p, e) => FoundLater(c, ws, evs, n, id, p, t.code, e);
        case Timing(_, _) => TimeTraced(c, ws, evs, n, id);
        case _ =>
      }
    }
    OthersTraced(c, ws, evs, n, w', id);
    forall p | p in w'.store.paired
      ensures Authorised(c, ws, evs, n + 1, p)
    {
      if p in w.store.paired {
        AuthorisedLater(c, ws, evs, n, p);
      } else {
        AddTraced(c, ws, evs, n, id);
      }
    }
  }

  lemma StepTraced(c: Config, ws: seq<World>, evs: seq<Event>, n: nat)
    requires n < |evs| && n < |ws| && Enabled(ws[n], evs[n]) && Traced(c, ws, evs, n, ws[n])
    ensures Traced(c, ws, evs, n + 1, Next(c, ws[n], evs[n]))
  {
    var w, w' := ws[n], Next(c, ws[n], evs[n]);
    match evs[n] {
      case StartCheck(id, _) =>
        RowsLater(c, ws, evs, n, w.store, w'.store);
        OthersTraced(c, ws, evs, n, w', id);
        PairedTraced(c, ws, evs, n, w');
      case StartApproval(id, _, _) =>
        RowsLater(c, ws, evs, n, w.store, w'.store);
        OthersTraced(c, ws, evs, n, w', id);
        PairedTraced(c, ws, evs, n, w');
      case Advance(id, _) =>
        if w.tasks[id].Checking? {
          CheckTraced(c, ws, evs, n, id);
        } else {
          ApprovalTraced(c, ws, evs, n, id);
        }
      case _ =>
        RowsLater(c, ws, evs, n, w.store, w'.store);
        PairedTraced(c, ws, evs, n, w');
        forall id | id in w'.tasks
          ensures StageTraced(c, ws, evs, n + 1, id, w'.tasks[id])
        {
          StageLater(c, ws, evs, n, id, w.tasks[id]);
        }
    }
  }

  lemma {:induction false} TracedThroughout(c: Config, ws: seq<World>, evs: seq<Event>, n: nat)
    requires Runs(c, ws, evs) && n <= |evs|
    ensures Traced(c, ws, evs, n, ws[n])
  {
    if n > 0 {
      TracedThroughout(c, ws, evs, n - 1);
      StepTraced(c, ws, evs, n - 1);
    }
  }

  lemma {:induction false} PairedStays(c: Config, ws: seq<World>, evs: seq<Event>, l: nat, n: nat, id: nat, p: Peer)
    requires Runs(c, ws, evs) && l < n <= |evs| && Pairs(ws, evs, l, id, p)
    requires forall q | l < q < n :: evs[q] != RevokePeer(p)
    ensures p in ws[n].store.paired
  {
    if l + 1 < n {
      PairedStays(c, ws, evs, l, n - 1, id, p);
      assert evs[n - 1] != RevokePeer(p);
    }
  }

  /** Under every interleaving, a peer is paired exactly when it was issued a code, then an approval of
      that code on its channel found the request, then read the clock before its expiry, then paired the
      peer, and no revocation of it followed. */
  lemma PairedInOrder(c: Config, ws: seq<World>, evs: seq<Event>, n: nat, p: Peer)
    requires Runs(c, ws, evs) && n <= |evs|
    ensures p in ws[n].store.paired <==> Authorised(c, ws, evs, n, p)
  {
    TracedThroughout(c, ws, evs, n);
    if Authorised(c, ws, evs, n, p) {
      var l: nat, id: nat, code: string, e: int :| Granted(c, ws, evs, n, p, l, id, code, e);
      PairedStays(c, ws, evs, l, n, id, p);
    }
  }
}
