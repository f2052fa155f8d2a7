/** The agent object itself: the closure variables, the public calls that update them, and the entry
    and exit of a run. Each method is tied to the step of the value model it performs. */
module AgentInstance {
  import opened Options
  import opened Transcript
  import opened RunStates
  import opened Resume
  import opened RunLoop
  import opened RunSteps
  import opened AgentRuns

  class Instance {
    var runInFlight: bool
    var pendingSteer: seq<Message>
    var pendingFollowUp: seq<Message>
    var pendingAbort: Option<Policy>
    var signalAborted: bool
    var runActive: bool
    var pendingManualCompacts: seq<nat>
    var resolvedCompacts: seq<nat>
    var parentListeners: nat
    var openSpans: nat
    var nextCompact: nat

    ghost function Sh(): Shared
      reads this
    {
      Shared(runInFlight, pendingSteer, pendingFollowUp, pendingAbort, signalAborted, runActive,
             pendingManualCompacts, resolvedCompacts, parentListeners, openSpans)
    }

    constructor ()
      ensures Sh() == INIT.sh && nextCompact == INIT.asked
      ensures !runInFlight && !runActive && !signalAborted && pendingAbort == None && nextCompact == 0
      ensures pendingSteer == [] && pendingFollowUp == [] && pendingManualCompacts == [] && resolvedCompacts == []
      ensures parentListeners == 0 && openSpans == 0
    {
      runInFlight, pendingSteer, pendingFollowUp, pendingAbort := false, [], [], None;
      signalAborted, runActive, pendingManualCompacts, resolvedCompacts := false, false, [], [];
      parentListeners, openSpans, nextCompact := 0, 0, 0;
    }

    method Steer(ms: seq<Message>)
      modifies this`pendingSteer
      ensures Sh() == Steered(old(Sh()), ms)
      ensures pendingSteer == old(pendingSteer) + ms
    {
      pendingSteer := pendingSteer + ms;
    }

    method FollowUp(ms: seq<Message>)
      modifies this`pendingFollowUp
      ensures Sh() == Queued(old(Sh()), ms)
      ensures pendingFollowUp == old(pendingFollowUp) + ms
    {
      pendingFollowUp := pendingFollowUp + ms;
    }

    method Abort(policy: Policy)
      modifies this`pendingAbort, this`signalAborted
      ensures Sh() == Aborting(old(Sh()), policy)
      ensures pendingAbort == Some(policy) && signalAborted
    {
      pendingAbort := Some(policy);
      signalAborted := true;
    }

    /** Queues a compaction into the live run, or answers at once that there is none. */
    method Compact() returns (queued: bool)
      modifies this`pendingManualCompacts, this`nextCompact
      ensures queued == old(runActive)
      ensures pendingManualCompacts == old(pendingManualCompacts) + (if queued then [old(nextCompact)] else [])
      ensures queued ==> Sh() == CompactAsked(old(Sh()), old(nextCompact)) && nextCompact == old(nextCompact) + 1
      ensures !queued ==> Sh() == old(Sh()) && nextCompact == old(nextCompact)
    {
      queued := runActive;
      if queued {
        pendingManualCompacts := pendingManualCompacts + [nextCompact];
        nextCompact := nextCompact + 1;
      }
    }

    method IsBusy() returns (busy: bool)
      ensures busy == runInFlight
    {
      busy := runInFlight;
    }

    method SettleManualCompacts()
      modifies this`pendingManualCompacts, this`resolvedCompacts
      ensures Sh() == SettleCompacts(old(Sh()))
      ensures pendingManualCompacts == [] && resolvedCompacts == old(resolvedCompacts + pendingManualCompacts)
    {
      while pendingManualCompacts != []
        invariant resolvedCompacts + pendingManualCompacts == old(resolvedCompacts + pendingManualCompacts)
        decreases |pendingManualCompacts|
      {
        resolvedCompacts := resolvedCompacts + [pendingManualCompacts[0]];
        pendingManualCompacts := pendingManualCompacts[1..];
      }
      assert resolvedCompacts + [] == resolvedCompacts;
    }

    /** First `next()` of a run's generator. */
    method EnterRun(args: Args) returns (how: Option<End>, run: Option<Run>)
      modifies this
      ensures nextCompact == old(nextCompact)
      ensures how == Some(Rejected) <==> old(runInFlight)
      ensures how == Some(BadBudget) <==> !old(runInFlight) && Malformed(args.budget)
      ensures how == None <==> !old(runInFlight) && !Malformed(args.budget)
      ensures run.Some? <==> how == None
      ensures how != Some(Rejected) ==>
                && pendingSteer == [] && pendingAbort == None
                && pendingFollowUp == (if args.input.Fresh? then [] else old(pendingFollowUp))
      ensures how == None ==>
                && runInFlight && runActive && signalAborted == args.parent.AlreadyAborted?
                && parentListeners == old(parentListeners) + (if args.parent.Attached? then 1 else 0)
                && openSpans == old(openSpans) + (if args.input.Of? then 1 else 0)
      ensures how == Some(BadBudget) ==>
                && !runInFlight && !runActive && signalAborted == old(signalAborted) && pendingManualCompacts == []
                && parentListeners == old(parentListeners) && openSpans == old(openSpans)
      ensures old(runInFlight) ==> how == Some(Rejected) && run == None && Sh() == old(Sh())
      ensures !old(runInFlight) && !ValidBudget(args.budget) ==>
                how == Some(BadBudget) && run == None && Sh() == Refused(BeginShared(old(Sh()), args))
      ensures !old(runInFlight) && ValidBudget(args.budget) ==>
                how == None && Sh() == OpenShared(BeginShared(old(Sh()), args), args) &&
                run == Some(NewRun(args, if args.input.Fresh? then old(pendingFollowUp) else []))
    {
      BudgetExactly(args.budget);
      if runInFlight {
        return Some(Rejected), None;
      }
      runInFlight, pendingSteer, pendingAbort := true, [], None;
      var ride: seq<Message> := [];
      if args.input.Fresh? {
        ride, pendingFollowUp := pendingFollowUp, [];
      }
      if !ValidBudget(args.budget) {
        runInFlight, runActive := false, false;
        SettleManualCompacts();
        return Some(BadBudget), None;
      }
      OpenSignals(args);
      return None, Some(NewRun(args, ride));
    }

    /** A fresh controller, the parent's listener, and a resumed run's span. */
    method OpenSignals(args: Args)
      modifies this`signalAborted, this`runActive, this`parentListeners, this`openSpans
      ensures Sh() == OpenShared(old(Sh()), args)
    {
      signalAborted, runActive := args.parent.AlreadyAborted?, true;
      if args.parent.Attached? {
        parentListeners := parentListeners + 1;
      }
      if args.input.Of? {
        openSpans := openSpans + 1;
      }
    }

    /** The `finally` blocks of a run that ends, by whatever path. */
    method ExitRun(run: Run)
      modifies this
      ensures Sh() == Leave(old(Sh()), run) && nextCompact == old(nextCompact)
      ensures !runInFlight && !runActive && pendingManualCompacts == []
      ensures resolvedCompacts == old(resolvedCompacts + pendingManualCompacts)
      ensures pendingSteer == old(pendingSteer) && pendingFollowUp == old(pendingFollowUp)
      ensures openSpans == old(openSpans) - (if run.entered && run.span && old(openSpans) > 0 then 1 else 0)
      ensures parentListeners ==
              old(parentListeners) - (if run.entered && run.listener && old(parentListeners) > 0 then 1 else 0)
    {
      if run.entered {
        if run.span && openSpans > 0 { openSpans := openSpans - 1; }
        if run.listener && parentListeners > 0 { parentListeners := parentListeners - 1; }
      }
      runInFlight, runActive := false, false;
      SettleManualCompacts();
    }
  }
}
