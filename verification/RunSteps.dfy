/** What each move of a run does, stated outright: transcript, status, journal, charges, requests, events
    and where the run goes next. */
module RunSteps {
  import opened Options
  import opened Transcript
  import opened Compaction
  import opened RunStates
  import opened Approvals
  import opened Resume
  import opened WalkExact
  import opened RunLoop

  // ---------------------------------------------------------------- budgets

  /** A limit that is not a finite number of at least zero, or an unknown reaction to unpriced models. */
  predicate Malformed(b: Budget) {
    || (b.maxTokens.Some? && (b.maxTokens.value.NotFinite? || b.maxTokens.value.value < 0.0))
    || (b.maxCostUsd.Some? && (b.maxCostUsd.value.NotFinite? || b.maxCostUsd.value.value < 0.0))
    || (b.onUnpriced.Some? && b.onUnpriced.value != "fail" && b.onUnpriced.value != "warn")
  }

  lemma BudgetExactly(b: Budget)
    ensures ValidBudget(b) <==> !Malformed(b)
  {
  }

  // ---------------------------------------------------------------- the loop head

  /** From the loop head: a run that reached its step count leaves the loop as it is; an abort cancels it
      under the policy in force, deny if none was given; a run whose total is within its token limit, or
      that has none, opens the next step and takes all steering; any other run fails, and throws exactly
      when its budget says so. */
  lemma TopExactly(c: Config, sh: Shared, r: Run)
    requires r.pc.LoopTop?
    ensures var (sh', r') := Step(c, sh, r, Top);
            var policy := if sh.abortPolicy.None? then Deny else sh.abortPolicy.value;
            var limit := r.budget.maxTokens;
            var fits := limit.None? || limit.value.NotFinite? || r.w.st.usage.total as real <= limit.value.value;
            if |r.w.st.steps| >= c.stopAt then
              r' == r.(span := false, listener := false, pc := Finalizing) && sh'.steer == sh.steer
            else if sh.aborted then
              && Cancelled(r.w, policy, r'.w) && sh'.steer == sh.steer && r'.events == r.events
              && r'.pc == (if policy.Fail? && r.w.st.pending != [] then Finishing else Finalizing)
            else if fits then
              && r' == r.(w := r.w.(buf := r.w.buf + sh.steer, st := r.w.st.(messages := r.w.st.messages + sh.steer)),
                          stepNumber := r.stepNumber + 1, stepBase := r.w.st.usage.total,
                          events := r.events + [StepStart(r.stepNumber + 1)], pc := StepOpen)
              && sh' == sh.(steer := [])
            else
              && r' == r.(w := r.w.(st := r.w.st.(status := Failed)),
                          pc := if r.budget.throwOnExceed then Gone else Finishing)
              && sh' == sh
  {
    if |r.w.st.steps| >= c.stopAt {
      assert Step(c, sh, r, Top) == (Released(sh, r), LeaveLoop(r));
    } else if sh.aborted {
      TopAborted(c, sh, r);
    } else {
      TopBudget(c, sh, r);
    }
  }

  lemma TopAborted(c: Config, sh: Shared, r: Run)
    requires r.pc.LoopTop? && |r.w.st.steps| < c.stopAt && sh.aborted
    ensures var (sh', r') := Step(c, sh, r, Top);
            var policy := if sh.abortPolicy.None? then Deny else sh.abortPolicy.value;
            && Cancelled(r.w, policy, r'.w) && sh'.steer == sh.steer && r'.events == r.events
            && r'.pc == (if policy.Fail? && r.w.st.pending != [] then Finishing else Finalizing)
  {
    CancelExactly(r.w, AbortPolicy(sh));
    assert Step(c, sh, r, Top) == (Exited(sh, r, TopCancel(sh, r)), TopCancel(sh, r));
  }

  lemma TopBudget(c: Config, sh: Shared, r: Run)
    requires r.pc.LoopTop? && |r.w.st.steps| < c.stopAt && !sh.aborted
    ensures var limit := r.budget.maxTokens;
            var fits := limit.None? || limit.value.NotFinite? || r.w.st.usage.total as real <= limit.value.value;
            Step(c, sh, r, Top) ==
              if fits then
                (sh.(steer := []),
                 r.(w := r.w.(buf := r.w.buf + sh.steer, st := r.w.st.(messages := r.w.st.messages + sh.steer)),
                    stepNumber := r.stepNumber + 1, stepBase := r.w.st.usage.total,
                    events := r.events + [StepStart(r.stepNumber + 1)], pc := StepOpen))
              else
                (sh, r.(w := r.w.(st := r.w.st.(status := Failed)),
                        pc := if r.budget.throwOnExceed then Gone else Finishing))
  {
  }

  // ---------------------------------------------------------------- requests

  /** A step's compactions rewrite buffer and state alike, the buffer behind the pinned prefix by
      `Trimming`; nothing else changes. */
  lemma ShrinkExactly(w: Work, prefix: nat, recent: nat, keep: nat, summary: string, essentials: string)
    requires prefix <= |w.buf|
    ensures var r := Shrink(w, prefix, TrimTo(recent, keep, summary, essentials));
            || (r == w && Trimming(w.buf, prefix, recent, keep, summary, essentials, NothingToTrim))
            || (r == w.(buf := r.buf, st := w.st.(messages := r.buf)) &&
                Trimming(w.buf, prefix, recent, keep, summary, essentials, Trimmed(r.buf)))
  {
    SpliceExactly(w.buf, prefix, recent, keep, summary, essentials);
  }

  /** Sending, falling back and retrying each make one request, which carries the buffer and the
      request-only messages behind it; the first two leave the run's work as it is, a retry compacts it
      and is the chain's last. */
  lemma RequestExactly(c: Config, sh: Shared, r: Run, m: Move)
    requires Enabled(c, sh, r, m) && (m.Send? || m.Retry? || m.Fallback?)
    ensures var (sh', r') := Step(c, sh, r, m);
            && sh' == sh
            && r' == r.(w := r'.w, pc := r'.pc, requests := r.requests + [Request(r'.w.buf + c.trailer, r'.w.st)])
            && (if m.Retry? then r.prefix <= |r.w.buf| && r'.w == Shrink(r.w, r.prefix, m.trim) else r'.w == r.w)
            && r'.pc.Chaining?
            && r'.pc.left == (if m.Send? then c.providers - 1 else if m.Fallback? then r.pc.left - 1 else r.pc.left)
            && r'.pc.mayShrink == (m.Send? || (m.Fallback? && r.pc.mayShrink))
  {
  }

  /** Preparing compacts as often as asked, in order, and settles every queued compaction. */
  lemma PrepareExactly(c: Config, sh: Shared, r: Run, trims: seq<Trim>)
    requires Enabled(c, sh, r, Prepare(trims))
    ensures var (sh', r') := Step(c, sh, r, Prepare(trims));
            && r' == r.(w := ShrinkAll(r.w, r.prefix, trims), pc := Prepared)
            && sh' == sh.(settled := sh.settled + sh.compacts, compacts := [])
            && (trims == [] ==> r'.w == r.w)
  {
  }

  /** Compactions are applied one behind the other. */
  lemma {:induction false} PreparedInOrder(w: Work, prefix: nat, trims: seq<Trim>, trim: Trim)
    requires prefix <= |w.buf|
    ensures prefix <= |ShrinkAll(w, prefix, trims).buf|
    ensures ShrinkAll(w, prefix, trims + [trim]) == Shrink(ShrinkAll(w, prefix, trims), prefix, trim)
    decreases |trims|
  {
    if trims == [] {
      assert [] + [trim] == [trim] && [trim][1..] == [];
    } else {
      ShrinkKeepsPrefix(w, prefix, trims[0]);
      assert (trims + [trim])[0] == trims[0] && (trims + [trim])[1..] == trims[1..] + [trim];
      PreparedInOrder(Shrink(w, prefix, trims[0]), prefix, trims[1..], trim);
    }
  }

  // ---------------------------------------------------------------- replies

  /** A reply is charged to its model and to the accumulator, committed to buffer and state, and journaled
      under the step's number with its usage; its calls are walked, if it has any. */
  lemma ReplyExactly(
      c: Config, sh: Shared, r: Run, text: string, calls: seq<CallId>, model: string, cost: Usage, k: nat)
    requires r.pc.Chaining? && FirstEntry(r.w.st.byModel, model, k)
    ensures var (sh', r') := Step(c, sh, r, ChainDone(text, calls, model, cost));
            var l := r.w.st.byModel;
            && sh' == sh && r' == r.(w := r'.w, pc := if calls == [] then Closing([]) else Walking(calls))
            && r'.w.buf == r.w.buf + [Assistant(text, calls)] && r'.w.acc == Add(r.w.acc, cost)
            && r'.w.st == r.w.st.(
                 messages := r.w.st.messages + [Assistant(text, calls)],
                 steps := r.w.st.steps + [StepRec(r.stepNumber, cost, [])],
                 usage := Add(r.w.st.usage, cost),
                 byModel := if k < |l| then l[k := (model, Add(l[k].1, cost))] else l + [(model, cost)])
  {
    AddModelExactly(r.w.st.byModel, model, cost, k);
  }

  /** A failed chain fails the run with its transcript as it is, charging the truncated call, if it spent
      anything, to total and model alone. */
  lemma ChainFailExactly(c: Config, sh: Shared, r: Run, model: string, spent: Usage, k: nat)
    requires r.pc.Chaining? && FirstEntry(r.w.st.byModel, model, k)
    ensures var (sh', r') := Step(c, sh, r, ChainFail(model, spent));
            var l := r.w.st.byModel;
            && sh' == sh && r'.pc == Finishing && r'.requests == r.requests && r'.events == r.events
            && r'.w.buf == r.w.buf && r'.w.acc == r.w.acc
            && r'.w.st ==
               if spent.total == 0 then r.w.st.(status := Failed)
               else r.w.st.(
                 status := Failed, usage := Add(r.w.st.usage, spent),
                 byModel := if k < |l| then l[k := (model, Add(l[k].1, spent))] else l + [(model, spent)])
  {
    AddModelExactly(r.w.st.byModel, model, spent, k);
  }

  /** A chain without a finished reply is a cancellation if an abort arrived, and a failure else; a throw
      inside a step fails the run with its work as it is. */
  lemma ChainEndsExactly(c: Config, sh: Shared, r: Run, m: Move)
    requires Enabled(c, sh, r, m) && (m.ChainAbort? || m.ChainNone? || m.StepThrow?)
    ensures var (sh', r') := Step(c, sh, r, m);
            var policy := if sh.abortPolicy.None? then Deny else sh.abortPolicy.value;
            && sh' == sh && r' == r.(w := r'.w, pc := Finishing)
            && (if m.ChainAbort? then sh.aborted && Cancelled(r.w, policy, r'.w)
                else r'.w == r.w.(st := r.w.st.(status := Failed)))
            && (m.ChainNone? ==> !sh.aborted)
  {
    CancelExactly(r.w, AbortPolicy(sh));
  }

  /** A walk that asks for nothing closes the step; one that does ends the run, suspended, or cancelled under
      the policy in force if an abort raced it. */
  lemma WalkDoneExactly(c: Config, sh: Shared, r: Run, outcomes: seq<Disposition>)
    requires Enabled(c, sh, r, WalkDone(outcomes))
    ensures var (sh', r') := Step(c, sh, r, WalkDone(outcomes));
            var policy := if sh.abortPolicy.None? then Deny else sh.abortPolicy.value;
            var walked := WalkStep(r.w, r.pc.calls, outcomes).w;
            && sh' == sh && r' == r.(w := r'.w, pc := r'.pc)
            && (if exists d | d in outcomes :: Suspends(d)
                then r'.pc == Finishing && (if sh.aborted then Cancelled(walked, policy, r'.w) else r'.w == walked)
                else r'.pc == Closing(r.pc.calls) && r'.w == walked)
  {
    WalkExactly(r.w, r.pc.calls, outcomes);
    CancelExactly(WalkStep(r.w, r.pc.calls, outcomes).w, AbortPolicy(sh));
  }

  /** Closing a step reports it. A step with calls loops; one without is continued with the verifiers'
      feedback as a user turn, or completes the run and leaves the loop. */
  lemma CloseExactly(c: Config, sh: Shared, r: Run, again: bool, feedback: string)
    requires Enabled(c, sh, r, Close(again, feedback))
    ensures var r' := Step(c, sh, r, Close(again, feedback)).1;
            var e := r.(events := r.events + [StepEnd(r.stepNumber)]);
            r' ==
              if r.pc.calls != [] then e.(pc := LoopTop)
              else if again then
                e.(w := r.w.(buf := r.w.buf + [User(feedback)],
                             st := r.w.st.(messages := r.w.st.messages + [User(feedback)])),
                   rounds := r.rounds + 1, pc := LoopTop)
              else e.(w := r.w.(st := r.w.st.(status := Completed)), span := false, listener := false, pc := Finalizing)
  {
  }

  // ---------------------------------------------------------------- beginning and end

  /** A blocked input fails the run; otherwise it enters the loop with its work as it is, its counter at
      the greatest journaled step and its leading system messages pinned. */
  lemma ScreenExactly(c: Config, sh: Shared, r: Run, blocked: bool)
    requires Enabled(c, sh, r, Screen(blocked))
    ensures var (sh', r') := Step(c, sh, r, Screen(blocked));
            && sh' == sh && r'.requests == r.requests && r'.events == r.events && r'.budget == r.budget
            && if blocked then r'.pc == Finishing && r'.w == r.w.(st := r.w.st.(status := Failed))
               else
                 && r'.pc == LoopTop && r'.w == r.w && r'.entered && r'.entryStatus == r.w.st.status
                 && r'.prefix == Leading(r.w.buf) && r'.stepNumber == MaxStep(r.w.st.steps)
  {
  }

  /** A resume that returns finishes, one that enters loops, one that throws is gone; each with the work its
      outcome says. */
  lemma ResumptionExactly(
      c: Config, sh: Shared, r: Run, children: map<CallId, Child>, folds: seq<(string, Usage)>, throws: bool)
    requires Enabled(c, sh, r, Resumption(children, folds, throws))
    ensures var (sh', r') := Step(c, sh, r, Resumption(children, folds, throws));
            var o := ResumeRun(FoldAll(r.w, folds), r.directive, children);
            && sh' == sh && r'.requests == r.requests && r'.events == r.events && r'.budget == r.budget
            && (throws ==> r'.pc == Gone)
            && (!throws ==>
                  && r'.w == o.w
                  && r'.pc == (if o.Return? then Finishing else if o.Enter? then LoopTop else Gone)
                  && (o.Enter? ==> r'.entered && r'.entryStatus == o.w.st.status &&
                                   r'.prefix == Leading(o.w.buf) && r'.stepNumber == MaxStep(o.w.st.steps)))
  {
    var o := ResumeRun(FoldAll(r.w, folds), r.directive, children);
    assert !throws ==> Step(c, sh, r, Resumption(children, folds, throws)) == (sh, Resumed(r, o));
    OutcomeExactly(r, o);
  }

  lemma OutcomeExactly(r: Run, o: Outcome)
    ensures var r' := Resumed(r, o);
            && r'.w == o.w && r'.requests == r.requests && r'.events == r.events && r'.budget == r.budget
            && r'.pc == (if o.Return? then Finishing else if o.Enter? then LoopTop else Gone)
            && (o.Enter? ==> r'.entered && r'.entryStatus == o.w.st.status &&
                             r'.prefix == Leading(o.w.buf) && r'.stepNumber == MaxStep(o.w.st.steps))
  {
  }

  /** Finalizing fails a run that is still running, or completed with a rejected output, and touches
      nothing else of it. */
  lemma FinalizeExactly(c: Config, sh: Shared, r: Run, rejected: bool)
    requires r.pc.Finalizing?
    ensures var status := if r.w.st.status.Running? || (r.w.st.status.Completed? && rejected) then Failed
                          else r.w.st.status;
            Step(c, sh, r, Finalize(rejected)) ==
            (sh.(active := false), r.(w := r.w.(st := r.w.st.(status := status)), pc := Finishing))
  {
  }

  /** Finishing settles every queued compaction and reports the run's status. */
  lemma FinishExactly(c: Config, sh: Shared, r: Run)
    requires r.pc.Finishing?
    ensures Step(c, sh, r, Finish) ==
            (sh.(settled := sh.settled + sh.compacts, compacts := []),
             r.(events := r.events + [AgentEnd(r.w.st.status)], pc := Returning))
  {
  }

  // ---------------------------------------------------------------- what may happen

  /** Nothing the outside world can decide is left out: at each point every reply, cost, outcome and throw
      the source can meet there is a move of the model. */
  lemma NothingExcluded(c: Config, sh: Shared, r: Run)
    ensures r.pc.Seeding? ==> (forall s :: Enabled(c, sh, r, SeedDone(s))) && Enabled(c, sh, r, SeedThrow)
    ensures r.pc.Opened? && !r.resumed ==>
              (forall b :: Enabled(c, sh, r, Screen(b))) && Enabled(c, sh, r, ScreenThrow)
    ensures r.pc.Opened? && r.resumed ==> forall cs, b :: Enabled(c, sh, r, Resumption(cs, [], b))
    ensures r.pc.LoopTop? ==> Enabled(c, sh, r, Top)
    ensures r.pc.StepOpen? && r.prefix <= |r.w.buf| ==> forall ts :: Enabled(c, sh, r, Prepare(ts))
    ensures r.pc.Prepared? ==>
              if c.providers > 0 then Enabled(c, sh, r, Send)
              else Enabled(c, sh, r, if sh.aborted then ChainAbort else ChainNone)
    ensures r.pc.Chaining? ==>
              && (forall model, spent :: Enabled(c, sh, r, ChainFail(model, spent)))
              && (forall text, calls, model, cost :: Enabled(c, sh, r, ChainDone(text, calls, model, cost)))
              && (forall model, cost :: Enabled(c, sh, r, CommitThrow(None, model, cost)))
              && (r.pc.left > 0 ==> Enabled(c, sh, r, Fallback))
              && Enabled(c, sh, r, if sh.aborted then ChainAbort else ChainNone)
  {
  }

  lemma NothingExcludedLater(c: Config, sh: Shared, r: Run)
    ensures r.pc.Walking? ==>
              forall outcomes: seq<Disposition> | |outcomes| == |r.pc.calls| :: Enabled(c, sh, r, WalkDone(outcomes))
    ensures r.pc.Closing? ==> forall feedback :: Enabled(c, sh, r, Close(false, feedback))
    ensures r.pc.Closing? && r.pc.calls == [] && r.rounds < c.verifierRounds ==>
              forall feedback :: Enabled(c, sh, r, Close(true, feedback))
    ensures InsideTry(r.pc) ==> Enabled(c, sh, r, StepThrow)
    ensures r.pc.Finalizing? ==> forall b :: Enabled(c, sh, r, Finalize(b))
    ensures r.pc.Finishing? ==> Enabled(c, sh, r, Finish)
  {
  }
}
