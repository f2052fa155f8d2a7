/** A run ends: every move lowers a rank, because each loop iteration either leaves the loop or
    journals one step. And how a run that the stop condition cuts off is reported. */
module RunTermination {
  import opened Transcript
  import opened RunStates
  import opened Approvals
  import opened Resume
  import opened Ledgers
  import opened RunLoop
  import opened RunEffects

  function LoopsLeft(c: Config, steps: nat): nat {
    if steps >= c.stopAt then 0 else c.stopAt - steps
  }

  function PcRank(c: Config, pc: Pc): nat {
    match pc
    case Seeding(_) => 2 * c.providers + 15
    case Opened => 2 * c.providers + 14
    case Walking(_) => 2 * c.providers + 11
    case Closing(_) => 2 * c.providers + 10
    case LoopTop => 2 * c.providers + 9
    case StepOpen => 2 * c.providers + 8
    case Prepared => 2 * c.providers + 7
    case Chaining(left, mayShrink) => 4 + 2 * left + (if mayShrink then 1 else 0)
    case Finalizing => 3
    case Finishing => 2
    case Returning => 1
    case Gone => 0
  }

  function RankOf(c: Config, steps: nat, pc: Pc): nat {
    LoopsLeft(c, steps) * (2 * c.providers + 20) + PcRank(c, pc)
  }

  /** An upper bound on the moves a run can still make. */
  function Rank(c: Config, r: Run): nat {
    RankOf(c, |r.w.st.steps|, r.pc)
  }

  predicate BoundedAt(c: Config, steps: nat, pc: Pc) {
    (pc.StepOpen? || pc.Prepared? || pc.Chaining? ==> steps < c.stopAt) &&
    (pc.Chaining? ==> pc.left < c.providers)
  }

  predicate Bounded(c: Config, r: Run) {
    BoundedAt(c, |r.w.st.steps|, r.pc)
  }

  lemma Distribute(a: nat, d: nat, k: nat)
    ensures (a + d) * k == a * k + d * k
  {
  }

  lemma {:induction false} AtLeastOnce(d: nat, k: nat)
    requires d >= 1
    ensures d * k >= k
  {
    if d > 1 {
      AtLeastOnce(d - 1, k);
      Distribute(d - 1, 1, k);
    }
  }

  lemma Lexicographic(a: nat, b: nat, k: nat, p: nat, q: nat)
    requires a <= b && p < k && (p < q || a < b)
    ensures a * k + p < b * k + q
  {
    Distribute(a, b - a, k);
    if a < b {
      AtLeastOnce(b - a, k);
    } else {
      assert a * k == b * k;
    }
  }

  lemma PcRankBound(c: Config, steps: nat, pc: Pc)
    requires BoundedAt(c, steps, pc)
    ensures PcRank(c, pc) < 2 * c.providers + 20
  {
  }

  /** Journaling one more step outweighs any change of program point. */
  lemma RankDrops(c: Config, steps: nat, pc: Pc, steps': nat, pc': Pc)
    requires steps <= steps' && BoundedAt(c, steps', pc')
    requires PcRank(c, pc') < PcRank(c, pc) || (steps < steps' && steps < c.stopAt)
    ensures RankOf(c, steps', pc') < RankOf(c, steps, pc)
  {
    PcRankBound(c, steps', pc');
    Lexicographic(LoopsLeft(c, steps'), LoopsLeft(c, steps), 2 * c.providers + 20, PcRank(c, pc'), PcRank(c, pc));
  }

  /** What each move does to the journal length and the program point. */
  ghost predicate Advances(c: Config, steps: nat, pc: Pc, steps': nat, pc': Pc) {
    steps <= steps' && BoundedAt(c, steps', pc') &&
    (PcRank(c, pc') < PcRank(c, pc) || (steps < steps' && steps < c.stopAt))
  }

  ghost predicate Moves(c: Config, r: Run, r': Run) {
    Advances(c, |r.w.st.steps|, r.pc, |r'.w.st.steps|, r'.pc)
  }

  lemma OpeningMoves(c: Config, r: Run, m: Move, r': Run)
    requires IsOpening(m) && Effect(c, r, m, r')
    ensures Moves(c, r, r')
  {
  }

  lemma RequestMoves(c: Config, r: Run, m: Move, r': Run)
    requires IsRequest(m) && Effect(c, r, m, r') && Bounded(c, r)
    ensures Moves(c, r, r')
  {
  }

  lemma FailureMoves(c: Config, r: Run, m: Move, r': Run)
    requires IsFailure(m) && Effect(c, r, m, r')
    ensures Moves(c, r, r')
  {
  }

  lemma ClosingMoves(c: Config, r: Run, m: Move, r': Run)
    requires IsClosing(m) && Effect(c, r, m, r') && Bounded(c, r)
    ensures Moves(c, r, r')
  {
  }

  lemma EffectMoves(c: Config, r: Run, m: Move, r': Run)
    requires Effect(c, r, m, r') && Bounded(c, r)
    ensures Moves(c, r, r')
  {
    if IsOpening(m) {
      OpeningMoves(c, r, m, r');
    } else if IsRequest(m) {
      RequestMoves(c, r, m, r');
    } else if IsFailure(m) {
      FailureMoves(c, r, m, r');
    } else {
      ClosingMoves(c, r, m, r');
    }
  }

  /** Every move strictly lowers the rank. */
  lemma MoveTerminates(c: Config, sh: Shared, r: Run, m: Move)
    requires Enabled(c, sh, r, m) && Bounded(c, r)
    ensures Bounded(c, Step(c, sh, r, m).1)
    ensures Rank(c, Step(c, sh, r, m).1) < Rank(c, r)
  {
    var r' := Step(c, sh, r, m).1;
    assert Moves(c, r, r') by {
      MoveHasEffect(c, sh, r, m);
      EffectMoves(c, r, m, r');
    }
    RankDrops(c, |r.w.st.steps|, r.pc, |r'.w.st.steps|, r'.pc);
  }

  // ---------------------------------------------------------------- cut runs

  /** Inside the loop the status is still the one the run entered with. */
  ghost predicate StatusKept(r: Run) {
    r.pc.LoopTop? || InsideTry(r.pc) ==> r.w.st.status == r.entryStatus
  }

  lemma EffectKeepsStatus(c: Config, r: Run, m: Move, r': Run)
    requires Effect(c, r, m, r') && StatusKept(r)
    ensures StatusKept(r')
  {
  }

  lemma MoveKeepsStatus(c: Config, sh: Shared, r: Run, m: Move)
    requires Enabled(c, sh, r, m) && StatusKept(r)
    ensures StatusKept(Step(c, sh, r, m).1)
  {
    MoveHasEffect(c, sh, r, m);
    EffectKeepsStatus(c, r, m, Step(c, sh, r, m).1);
  }

  /** A run cut by the stop condition is documented to fail. It does exactly when it entered the
      loop running, or completed with an output that is rejected; a resumed completed or aborted run
      that is cut keeps its old status. */
  lemma CutRunReported(c: Config, sh: Shared, r: Run, rejected: bool)
    requires r.pc.LoopTop? && StatusKept(r) && Stop(c, r.w.st)
    ensures var (sh', mid) := Step(c, sh, r, Top);
            mid.pc.Finalizing? &&
            Step(c, sh', mid, Finalize(rejected)).1.w.st.status ==
              if r.entryStatus.Running? || (r.entryStatus.Completed? && rejected) then Failed else r.entryStatus
  {
    var mid := LeaveLoop(r);
    assert Step(c, sh, r, Top) == (Released(sh, r), mid);
    assert Step(c, Released(sh, r), mid, Finalize(rejected)).1 == DoFinalize(mid, rejected);
  }

  /** Every completed state with at least as many steps as the stop condition counts, resumed without
      approvals, is cut at once and reported completed again. */
  lemma CompletedRunCut(c: Config, sh: Shared, r: Run)
    requires r.pc.Opened? && r.resumed && r.w.st.status.Completed? && r.w.st.pending == [] && |r.w.st.steps| >= c.stopAt
    ensures var (sh1, r1) := Step(c, sh, r, Resumption(map[], [], false));
            var (sh2, r2) := Step(c, sh1, r1, Top);
            r1.pc.LoopTop? && r2.pc.Finalizing? && Step(c, sh2, r2, Finalize(false)).1.w.st.status.Completed?
  {
    assert ResumeRun(r.w, r.directive, map[]) == Enter(r.w);
    var r1 := EnterLoop(r, r.w);
    assert Step(c, sh, r, Resumption(map[], [], false)) == (sh, r1);
    CutRunReported(c, sh, r1, false);
  }
}
