/** Journal numbering, usage accounts and the spend bound of a run, move by move. */
module RunBooks {
  import opened Options
  import opened Transcript
  import opened RunStates
  import opened Approvals
  import opened Resume
  import opened Ledgers
  import opened RunLoop
  import opened RunEffects

  // ---------------------------------------------------------------- journal

  ghost predicate NumberedAt(pc: Pc, steps: seq<StepRec>, n: nat) {
    Increasing(steps) &&
    match pc
    case LoopTop => n == MaxStep(steps)
    case StepOpen => n == MaxStep(steps) + 1
    case Prepared => n == MaxStep(steps) + 1
    case Chaining(_, _) => n == MaxStep(steps) + 1
    case Walking(_) => n == MaxStep(steps)
    case Closing(_) => n == MaxStep(steps)
    case _ => true
  }

  ghost predicate Numbered(r: Run) {
    NumberedAt(r.pc, r.w.st.steps, r.stepNumber)
  }

  lemma JournalGrows(steps: seq<StepRec>, s: StepRec)
    requires Increasing(steps) && s.number == MaxStep(steps) + 1
    ensures Increasing(steps + [s]) && MaxStep(steps + [s]) == s.number
  {
    var all := steps + [s];
    assert all[..|steps|] == steps;
    forall i | 0 <= i < |steps|
      ensures all[i].number < s.number
    {
      assert steps[i] in steps;
    }
  }

  lemma ChainDoneNumbered(c: Config, r: Run, m: Move, r': Run)
    requires m.ChainDone? && Effect(c, r, m, r') && Numbered(r)
    ensures Numbered(r')
  {
    JournalGrows(r.w.st.steps, StepRec(r.stepNumber, m.cost, []));
  }

  lemma OpeningNumbered(c: Config, r: Run, m: Move, r': Run)
    requires IsOpening(m) && Effect(c, r, m, r') && Numbered(r)
    ensures Numbered(r')
  {
  }

  lemma InsideNumbered(c: Config, r: Run, m: Move, r': Run)
    requires !IsOpening(m) && !m.ChainDone? && Effect(c, r, m, r') && Numbered(r)
    ensures Numbered(r')
  {
  }

  lemma EffectKeepsJournal(c: Config, r: Run, m: Move, r': Run)
    requires Effect(c, r, m, r') && Numbered(r)
    ensures Numbered(r')
  {
    if IsOpening(m) {
      OpeningNumbered(c, r, m, r');
    } else if m.ChainDone? {
      ChainDoneNumbered(c, r, m, r');
    } else {
      InsideNumbered(c, r, m, r');
    }
  }

  /** Every move keeps the journal's step numbers strictly increasing. */
  lemma MoveKeepsJournal(c: Config, sh: Shared, r: Run, m: Move)
    requires Enabled(c, sh, r, m) && Numbered(r)
    ensures Numbered(Step(c, sh, r, m).1)
  {
    MoveHasEffect(c, sh, r, m);
    EffectKeepsJournal(c, r, m, Step(c, sh, r, m).1);
  }

  // ---------------------------------------------------------------- usage accounts

  /** A total together with charges made beside it. */
  function Plus(u: Usage, more: seq<Usage>): Usage {
    if more == [] then u else Add(Plus(u, more[..|more| - 1]), more[|more| - 1])
  }

  predicate Ending(pc: Pc) {
    pc.Finishing? || pc.Returning? || pc.Gone?
  }

  /** The run total is what the run began with, its accumulator, and what a failed chain left out. */
  predicate Shares(r: Run) {
    && r.w.st.usage == Plus(Add(r.startUsage, r.w.acc), r.unaccounted)
    && (Ending(r.pc) || r.unaccounted == [])
  }

  /** The run total is the journal, the sub-agent folds, and what a failing step left out. */
  predicate Journals(r: Run) {
    && r.w.st.usage == Plus(Add(SumSteps(r.w.st.steps), r.w.st.folded), r.unjournaled)
    && (Ending(r.pc) || r.unjournaled == [])
  }

  lemma PlusOne(u: Usage, x: Usage)
    ensures Plus(u, [x]) == Add(u, x)
  {
    assert [x][..0] == [];
  }

  lemma SumSnoc(steps: seq<StepRec>, s: StepRec)
    ensures SumSteps(steps + [s]) == Add(SumSteps(steps), s.usage)
  {
    assert (steps + [s])[..|steps|] == steps;
  }

  lemma Shift(start: Usage, acc: Usage, acc': Usage, u: Usage, u': Usage)
    requires u == Add(start, acc) && Add(acc', u) == Add(acc, u')
    ensures u' == Add(start, acc')
  {
  }

  // What a move can do to the books.

  predicate BooksStay(r: Run, r': Run) {
    SameBooks(r.w, r'.w) && NothingLost(r, r') && (Ending(r.pc) ==> Ending(r'.pc))
  }

  ghost predicate BooksFold(r: Run, r': Run) {
    !Ending(r.pc) && Booked(r.w, r'.w) && NothingLost(r, r')
  }

  predicate BooksTruncate(r: Run, r': Run, spent: Usage) {
    && !Ending(r.pc) && Ending(r'.pc) && Spends(r.w, r'.w, spent)
    && r'.w.st.steps == r.w.st.steps && r'.w.acc == r.w.acc
    && r'.unjournaled == r.unjournaled + [spent] && r'.unaccounted == r.unaccounted + [spent]
  }

  predicate BooksThrow(r: Run, r': Run, cost: Usage) {
    && !Ending(r.pc) && Ending(r'.pc) && Spends(r.w, r'.w, cost)
    && r'.w.st.steps == r.w.st.steps && r'.w.acc == Add(r.w.acc, cost)
    && r'.unjournaled == r.unjournaled + [cost] && r'.unaccounted == r.unaccounted
  }

  predicate BooksStep(r: Run, r': Run, cost: Usage) {
    && !Ending(r.pc) && Spends(r.w, r'.w, cost) && r'.w.acc == Add(r.w.acc, cost) && NothingLost(r, r')
    && r'.w.st.steps == r.w.st.steps + [StepRec(r.stepNumber, cost, [])]
  }

  ghost predicate BooksMove(r: Run, m: Move, r': Run) {
    && r'.startUsage == r.startUsage
    && match m
       case ChainFail(_, spent) => if spent.total == 0 then BooksStay(r, r') else BooksTruncate(r, r', spent)
       case CommitThrow(_, _, cost) => BooksThrow(r, r', cost)
       case ChainDone(_, _, _, cost) => BooksStep(r, r', cost)
       case _ => BooksStay(r, r') || BooksFold(r, r')
  }

  lemma OpeningBooks(c: Config, r: Run, m: Move, r': Run)
    requires IsOpening(m) && Effect(c, r, m, r')
    ensures BooksMove(r, m, r')
  {
  }

  lemma FailureBooks(c: Config, r: Run, m: Move, r': Run)
    requires IsFailure(m) && Effect(c, r, m, r')
    ensures BooksMove(r, m, r')
  {
  }

  lemma InsideBooks(c: Config, r: Run, m: Move, r': Run)
    requires !IsOpening(m) && !IsFailure(m) && Effect(c, r, m, r')
    ensures BooksMove(r, m, r')
  {
  }

  lemma EffectBooks(c: Config, r: Run, m: Move, r': Run)
    requires Effect(c, r, m, r')
    ensures BooksMove(r, m, r')
  {
    if IsOpening(m) {
      OpeningBooks(c, r, m, r');
    } else if IsFailure(m) {
      FailureBooks(c, r, m, r');
    } else {
      InsideBooks(c, r, m, r');
    }
  }

  lemma BooksKeepShares(r: Run, m: Move, r': Run)
    requires BooksMove(r, m, r') && Shares(r)
    ensures Shares(r')
  {
    var base := Add(r.startUsage, r.w.acc);
    match m {
      case ChainFail(_, spent) =>
        PlusOne(base, spent);
        assert [] + [spent] == [spent];
      case CommitThrow(_, _, cost) => AddSwap(r.startUsage, r.w.acc, cost);
      case ChainDone(_, _, _, cost) => AddSwap(r.startUsage, r.w.acc, cost);
      case _ =>
        if !BooksStay(r, r') {
          Shift(r.startUsage, r.w.acc, r'.w.acc, r.w.st.usage, r'.w.st.usage);
        }
    }
  }

  lemma BooksKeepJournals(r: Run, m: Move, r': Run)
    requires BooksMove(r, m, r') && Journals(r)
    ensures Journals(r')
  {
    var journal := SumSteps(r.w.st.steps);
    match m {
      case ChainFail(_, spent) =>
        PlusOne(Add(journal, r.w.st.folded), spent);
        assert [] + [spent] == [spent];
      case CommitThrow(_, _, cost) =>
        PlusOne(Add(journal, r.w.st.folded), cost);
        assert [] + [cost] == [cost];
      case ChainDone(_, _, _, cost) =>
        SumSnoc(r.w.st.steps, StepRec(r.stepNumber, cost, []));
        AddSwap(journal, r.w.st.folded, cost);
      case _ => assert !BooksStay(r, r') ==> Covered(r.w.st) && Covered(r'.w.st);
    }
  }

  lemma BooksKeepModels(r: Run, m: Move, r': Run)
    requires BooksMove(r, m, r') && Modelled(r.w.st)
    ensures Modelled(r'.w.st)
  {
  }

  /** Every move keeps each of the accounts; inside the loop nothing is left out of them. */
  lemma MoveKeepsAccounts(c: Config, sh: Shared, r: Run, m: Move)
    requires Enabled(c, sh, r, m)
    ensures Shares(r) ==> Shares(Step(c, sh, r, m).1)
    ensures Journals(r) ==> Journals(Step(c, sh, r, m).1)
    ensures Modelled(r.w.st) ==> Modelled(Step(c, sh, r, m).1.w.st)
  {
    var r' := Step(c, sh, r, m).1;
    assert BooksMove(r, m, r') by {
      MoveHasEffect(c, sh, r, m);
      EffectBooks(c, r, m, r');
    }
    if Shares(r) {
      BooksKeepShares(r, m, r');
    }
    if Journals(r) {
      BooksKeepJournals(r, m, r');
    }
    if Modelled(r.w.st) {
      BooksKeepModels(r, m, r');
    }
  }

  // ---------------------------------------------------------------- spend bound

  /** No step costs more than `most` tokens, sub-agent folds included. */
  predicate Cheap(c: Config, sh: Shared, r: Run, m: Move, most: nat) {
    InsideTry(r.pc) ==> Step(c, sh, r, m).1.w.st.usage.total <= r.stepBase + most
  }

  predicate ThriftyAt(ceiling: real, most: nat, entry: nat, total: nat, inside: bool, base: nat) {
    && (total <= entry || total as real <= ceiling + most as real)
    && (inside ==> base as real <= ceiling)
  }

  /** With a ceiling, the total is where it was at loop entry or within one step's cost of the ceiling. */
  predicate Thrifty(r: Run, most: nat) {
    Ceiling(r.budget).Some? && r.entered ==>
      ThriftyAt(Ceiling(r.budget).value, most, r.entryUsage.total, r.w.st.usage.total, InsideTry(r.pc), r.stepBase)
  }

  /** The guarded region is reached exactly by entering the loop. */
  predicate EnteredAt(pc: Pc, entered: bool) {
    (pc.Seeding? || pc.Opened? ==> !entered) &&
    (pc.LoopTop? || InsideTry(pc) || pc.Finalizing? ==> entered)
  }

  lemma EffectKeepsEntered(c: Config, r: Run, m: Move, r': Run)
    requires Effect(c, r, m, r') && EnteredAt(r.pc, r.entered)
    ensures EnteredAt(r'.pc, r'.entered)
  {
  }

  lemma EnteredStep(c: Config, sh: Shared, r: Run, m: Move)
    requires Enabled(c, sh, r, m) && EnteredAt(r.pc, r.entered)
    ensures EnteredAt(Step(c, sh, r, m).1.pc, Step(c, sh, r, m).1.entered)
  {
    MoveHasEffect(c, sh, r, m);
    EffectKeepsEntered(c, r, m, Step(c, sh, r, m).1);
  }

  lemma OpeningSpend(c: Config, r: Run, m: Move, r': Run, most: nat)
    requires IsOpening(m) && Effect(c, r, m, r') && Thrifty(r, most) && EnteredAt(r.pc, r.entered)
    ensures Thrifty(r', most)
  {
  }

  lemma InsideSpend(c: Config, r: Run, m: Move, r': Run, most: nat)
    requires !IsOpening(m) && Effect(c, r, m, r') && Thrifty(r, most) && EnteredAt(r.pc, r.entered)
    requires InsideTry(r.pc) ==> r'.w.st.usage.total <= r.stepBase + most
    ensures Thrifty(r', most)
  {
    assert Frame(r, r');
    assert !InsideTry(r.pc) ==> SameBooks(r.w, r'.w) && !InsideTry(r'.pc);
  }

  lemma MoveKeepsSpend(c: Config, sh: Shared, r: Run, m: Move, most: nat)
    requires Enabled(c, sh, r, m) && Cheap(c, sh, r, m, most)
    requires Thrifty(r, most) && EnteredAt(r.pc, r.entered)
    ensures Thrifty(Step(c, sh, r, m).1, most)
  {
    MoveHasEffect(c, sh, r, m);
    if IsOpening(m) {
      OpeningSpend(c, r, m, Step(c, sh, r, m).1, most);
    } else {
      InsideSpend(c, r, m, Step(c, sh, r, m).1, most);
    }
  }
}
