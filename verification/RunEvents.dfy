/** The event stream of a run: its grammar, and what every move adds to it. */
module RunEvents {
  import opened Options
  import opened Transcript
  import opened RunStates
  import opened Approvals
  import opened Resume
  import opened RunLoop
  import opened RunEffects

  datatype Gram = Before | Between(last: Option<nat>) | Inside(n: nat) | After | Wrong

  function Hear(g: Gram, e: Event): Gram {
    match (g, e)
    case (Before, AgentStart) => Between(None)
    case (Between(None), StepStart(n)) => Inside(n)
    case (Between(Some(m)), StepStart(n)) => if n == m + 1 then Inside(n) else Wrong
    case (Inside(m), StepEnd(n)) => if n == m then Between(Some(n)) else Wrong
    case (Between(_), AgentEnd(_)) => After
    case (Inside(_), AgentEnd(_)) => After
    case _ => Wrong
  }

  function Parse(es: seq<Event>): Gram {
    if es == [] then Before else Hear(Parse(es[..|es| - 1]), es[|es| - 1])
  }

  lemma ParseAppend(es: seq<Event>, e: Event)
    ensures Parse(es + [e]) == Hear(Parse(es), e)
  {
    assert (es + [e])[..|es|] == es;
  }

  predicate SpokenAt(pc: Pc, g: Gram, step: nat) {
    match pc
    case Seeding(_) => g == Before
    case Opened => g == Between(None)
    case LoopTop => g == Between(None) || g == Between(Some(step))
    case StepOpen => g == Inside(step)
    case Prepared => g == Inside(step)
    case Chaining(_, _) => g == Inside(step)
    case Walking(_) => g == Inside(step)
    case Closing(_) => g == Inside(step)
    case Finalizing => g.Between? || g.Inside?
    case Finishing => g.Between? || g.Inside?
    case Returning => g == After
    case Gone => true
  }

  predicate Spoken(r: Run) {
    SpokenAt(r.pc, Parse(r.events), r.stepNumber)
  }

  lemma SpokenSame(r: Run, r': Run)
    requires Silent(r, r') && SpokenAt(r'.pc, Parse(r.events), r'.stepNumber)
    ensures Spoken(r')
  {
  }

  lemma SpokenNext(r: Run, r': Run, e: Event)
    requires r'.events == r.events + [e] && SpokenAt(r'.pc, Hear(Parse(r.events), e), r'.stepNumber)
    ensures Spoken(r')
  {
    ParseAppend(r.events, e);
  }

  lemma OpeningSpoken(c: Config, r: Run, m: Move, r': Run)
    requires IsOpening(m) && Effect(c, r, m, r') && Spoken(r)
    ensures Spoken(r')
  {
    if m.SeedDone? {
      SpokenNext(r, r', AgentStart);
    } else if m.Top? && r'.pc.StepOpen? {
      SpokenNext(r, r', StepStart(r.stepNumber + 1));
    } else {
      SpokenSame(r, r');
    }
  }

  lemma CloseSpoken(c: Config, r: Run, m: Move, r': Run)
    requires m.Close? && Effect(c, r, m, r') && Spoken(r)
    ensures Spoken(r')
  {
    SpokenNext(r, r', StepEnd(r.stepNumber));
  }

  lemma FinishSpoken(c: Config, r: Run, m: Move, r': Run)
    requires m.Finish? && Effect(c, r, m, r') && Spoken(r)
    ensures Spoken(r')
  {
    SpokenNext(r, r', AgentEnd(r.w.st.status));
  }

  lemma ReplySpoken(c: Config, r: Run, m: Move, r': Run)
    requires m.ChainAbort? || m.ChainDone? || m.WalkDone? || m.Finalize? || m.FinalizeThrow?
    requires Effect(c, r, m, r') && Spoken(r)
    ensures Spoken(r')
  {
    SpokenSame(r, r');
  }

  lemma SilentSpoken(c: Config, r: Run, m: Move, r': Run)
    requires (IsRequest(m) || IsFailure(m)) && Effect(c, r, m, r') && Spoken(r)
    ensures Spoken(r')
  {
    SpokenSame(r, r');
  }

  lemma EffectKeepsGrammar(c: Config, r: Run, m: Move, r': Run)
    requires Effect(c, r, m, r') && Spoken(r)
    ensures Spoken(r')
  {
    if IsOpening(m) {
      OpeningSpoken(c, r, m, r');
    } else if IsRequest(m) || IsFailure(m) {
      SilentSpoken(c, r, m, r');
    } else if m.Close? {
      CloseSpoken(c, r, m, r');
    } else if m.Finish? {
      FinishSpoken(c, r, m, r');
    } else {
      ReplySpoken(c, r, m, r');
    }
  }

  /** Every move keeps the grammar. */
  lemma MoveKeepsGrammar(c: Config, sh: Shared, r: Run, m: Move)
    requires Enabled(c, sh, r, m) && Spoken(r)
    ensures Spoken(Step(c, sh, r, m).1)
  {
    MoveHasEffect(c, sh, r, m);
    EffectKeepsGrammar(c, r, m, Step(c, sh, r, m).1);
  }

  /** Position `i` of a run's stream, when its first step is number `k`. */
  ghost predicate InPlace(e: Event, i: nat, k: nat)
    requires i > 0
  {
    if i % 2 == 1 then e == StepStart(k + (i - 1) / 2) else e == StepEnd(k + i / 2 - 1)
  }

  ghost predicate Alternates(es: seq<Event>, k: nat) {
    es != [] && es[0] == AgentStart && forall i | 0 < i < |es| :: InPlace(es[i], i, k)
  }

  lemma {:induction false} ParseMeaning(es: seq<Event>)
    ensures Parse(es).Before? ==> es == []
    ensures Parse(es) == Between(None) ==> es == [AgentStart]
    ensures Parse(es).Between? && Parse(es).last.Some? ==>
              |es| % 2 == 1 && |es| >= 3 && Parse(es).last.value + 1 >= (|es| - 1) / 2 &&
              Alternates(es, Parse(es).last.value + 1 - (|es| - 1) / 2)
    ensures Parse(es).Inside? ==>
              |es| % 2 == 0 && |es| >= 2 && Parse(es).n + 1 >= |es| / 2 && Alternates(es, Parse(es).n + 1 - |es| / 2)
  {
    if es != [] {
      var n := |es| - 1;
      var front := es[..n];
      ParseMeaning(front);
      assert forall i | 0 <= i < n :: front[i] == es[i];
      match (Parse(front), es[n]) {
        case (Between(Some(m)), StepStart(k)) =>
          if k == m + 1 { assert InPlace(es[n], n, m + 1 - (n - 1) / 2); }
        case (Between(None), StepStart(k)) => assert InPlace(es[n], n, k);
        case (Inside(m), StepEnd(k)) =>
          if k == m { assert InPlace(es[n], n, m + 1 - n / 2); }
        case _ =>
      }
    }
  }

  /** A run that returns said: agent.start, then step.start k, step.end k, step.start k+1, and so on
      with at most the last step left open, then agent.end; nothing else of these kinds. */
  lemma ReturnedGrammar(es: seq<Event>)
    requires Parse(es) == After
    ensures |es| >= 2 && es[|es| - 1].AgentEnd?
    ensures exists k: nat {:trigger Alternates(es[..|es| - 1], k)} :: Alternates(es[..|es| - 1], k)
  {
    var front := es[..|es| - 1];
    ParseMeaning(front);
    match Parse(front) {
      case Between(None) => assert Alternates(front, 0);
      case Between(Some(n)) =>
      case Inside(n) =>
      case _ =>
    }
  }
}
