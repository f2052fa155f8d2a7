/** The durable run state an agent returns, persists and resumes from. */
module RunStates {
  import opened Transcript

  datatype Status = Running | Completed | Failed | Aborted | AwaitingApproval

  datatype Usage = Usage(prompt: nat, completion: nat, total: nat)

  const ZERO := Usage(0, 0, 0)

  function Add(a: Usage, b: Usage): Usage {
    Usage(a.prompt + b.prompt, a.completion + b.completion, a.total + b.total)
  }

  lemma AddZero(u: Usage)
    ensures Add(u, ZERO) == u
  {
  }

  /** A gated call waiting for a decision. `path` is empty for the run's own calls; for a call of a
      parked sub-agent run it starts with the parent call the sub-run is parked under. */
  datatype Approval = Approval(callId: CallId, path: seq<CallId>)

  datatype Decision = Decision(callId: CallId, path: seq<CallId>, granted: bool)

  /** One journal entry: the step's number, its model usage and the calls completed in it. */
  datatype StepRec = StepRec(number: nat, usage: Usage, calls: seq<CallId>)

  /** `parks` lists the parent calls of parked sub-agent runs; `byModel` is the per-model ledger in
      insertion order; `folded` is the usage taken over from sub-agent runs. */
  datatype RunState = RunState(
    status: Status,
    messages: seq<Message>,
    steps: seq<StepRec>,
    pending: seq<Approval>,
    parks: seq<CallId>,
    usage: Usage,
    byModel: seq<(string, Usage)>,
    folded: Usage)

  const FRESH := RunState(Running, [], [], [], [], ZERO, [], ZERO)

  /** A run state together with the loop's working buffer and the run's usage accumulator. */
  datatype Work = Work(st: RunState, buf: seq<Message>, acc: Usage)

  /** Appends to the working buffer and to the run state alike. */
  function Say(w: Work, m: Message): Work {
    w.(buf := w.buf + [m], st := w.st.(messages := w.st.messages + [m]))
  }

  function SayAll(w: Work, ms: seq<Message>): Work {
    w.(buf := w.buf + ms, st := w.st.(messages := w.st.messages + ms))
  }

  // ---------------------------------------------------------------- journal

  function MaxStep(steps: seq<StepRec>): (r: nat)
    ensures forall s | s in steps :: s.number <= r
  {
    if steps == [] then 0
    else
      var m := MaxStep(steps[..|steps| - 1]);
      var last := steps[|steps| - 1].number;
      if last > m then last else m
  }

  ghost predicate Increasing(steps: seq<StepRec>) {
    forall i, j | 0 <= i < j < |steps| :: steps[i].number < steps[j].number
  }

  lemma MaxIsLast(steps: seq<StepRec>)
    requires Increasing(steps) && steps != []
    ensures MaxStep(steps) == steps[|steps| - 1].number
  {
    if |steps| > 1 {
      MaxIsLast(steps[..|steps| - 1]);
    }
  }

  function OpenStep(st: RunState, number: nat, usage: Usage): RunState {
    st.(steps := st.steps + [StepRec(number, usage, [])])
  }

  /** Records a completed call in the last journal entry, if there is one. */
  function Record(st: RunState, id: CallId): RunState {
    if st.steps == [] then st
    else
      var n := |st.steps| - 1;
      var last := st.steps[n];
      st.(steps := st.steps[n := last.(calls := last.calls + [id])])
  }

  function Journaled(steps: seq<StepRec>): set<CallId> {
    set s, id | s in steps && id in s.calls :: id
  }

  // ---------------------------------------------------------------- ledgers

  function SumSteps(steps: seq<StepRec>): Usage {
    if steps == [] then ZERO else Add(SumSteps(steps[..|steps| - 1]), steps[|steps| - 1].usage)
  }

  function SumModels(l: seq<(string, Usage)>): Usage {
    if l == [] then ZERO else Add(l[0].1, SumModels(l[1..]))
  }

  /** Merges a call's usage into the per-model ledger. */
  function AddModel(l: seq<(string, Usage)>, model: string, u: Usage): (r: seq<(string, Usage)>)
    ensures SumModels(r) == Add(SumModels(l), u)
  {
    if l == [] then [(model, u)]
    else if l[0].0 == model then [(model, Add(l[0].1, u))] + l[1..]
    else
      var rest := AddModel(l[1..], model, u);
      assert ([l[0]] + rest)[1..] == rest;
      [l[0]] + rest
  }

  /** The first entry of a model, or the length of the ledger. */
  ghost predicate FirstEntry(l: seq<(string, Usage)>, model: string, k: nat) {
    k <= |l| && (forall i | 0 <= i < k :: l[i].0 != model) && (k < |l| ==> l[k].0 == model)
  }

  /** Merging charges the first entry of the named model and no other, or appends one. */
  lemma {:induction false} AddModelExactly(l: seq<(string, Usage)>, model: string, u: Usage, k: nat)
    requires FirstEntry(l, model, k)
    ensures AddModel(l, model, u) == if k < |l| then l[k := (model, Add(l[k].1, u))] else l + [(model, u)]
  {
    if k > 0 {
      assert FirstEntry(l[1..], model, k - 1);
      AddModelExactly(l[1..], model, u, k - 1);
      assert l == [l[0]] + l[1..];
    }
  }

  /** The ledger after charging entries one by one. */
  function Charges(l: seq<(string, Usage)>, folds: seq<(string, Usage)>): seq<(string, Usage)>
    decreases |folds|
  {
    if folds == [] then l else Charges(AddModel(l, folds[0].0, folds[0].1), folds[1..])
  }

  function Charge(st: RunState, model: string, u: Usage): RunState {
    st.(usage := Add(st.usage, u), byModel := AddModel(st.byModel, model, u))
  }

  /** Takes over usage a sub-agent run charged to one model. */
  function Fold(w: Work, model: string, u: Usage): Work {
    w.(st := Charge(w.st, model, u).(folded := Add(w.st.folded, u)), acc := Add(w.acc, u))
  }

  /** Takes over a sub-agent run's usage entry by entry. */
  function FoldAll(w: Work, folds: seq<(string, Usage)>): (r: Work)
    ensures r.buf == w.buf
    ensures r.st == w.st.(usage := r.st.usage, byModel := r.st.byModel, folded := r.st.folded)
  {
    if folds == [] then w
    else
      var n := |folds| - 1;
      Fold(FoldAll(w, folds[..n]), folds[n].0, folds[n].1)
  }

  /** What a finished sub-agent run hands over: its per-model ledger, or its total under a name of its
      own if it kept none. */
  function ChildFolds(child: RunState, name: string): seq<(string, Usage)> {
    if child.byModel != [] then child.byModel
    else if child.usage == ZERO then []
    else [("sub-agent:" + name, child.usage)]
  }

  lemma AddSwap(a: Usage, b: Usage, u: Usage)
    ensures Add(Add(a, b), u) == Add(Add(a, u), b) && Add(Add(a, b), u) == Add(a, Add(b, u))
  {
  }

  lemma {:induction false} ModelsSnoc(l: seq<(string, Usage)>, e: (string, Usage))
    ensures SumModels(l + [e]) == Add(SumModels(l), e.1)
  {
    if l == [] {
      assert [e][1..] == [];
    } else {
      ModelsSnoc(l[1..], e);
      assert (l + [e])[1..] == l[1..] + [e];
    }
  }

  lemma SumOfLast(folds: seq<(string, Usage)>)
    requires folds != []
    ensures SumModels(folds) == Add(SumModels(folds[..|folds| - 1]), folds[|folds| - 1].1)
  {
    var n := |folds| - 1;
    ModelsSnoc(folds[..n], folds[n]);
    assert folds[..n] + [folds[n]] == folds;
  }

  lemma {:induction false} FoldAllUsage(w: Work, folds: seq<(string, Usage)>)
    ensures FoldAll(w, folds).st.usage == Add(w.st.usage, SumModels(folds))
  {
    if folds == [] {
      AddZero(w.st.usage);
    } else {
      var n := |folds| - 1;
      FoldAllUsage(w, folds[..n]);
      SumOfLast(folds);
      AddSwap(w.st.usage, SumModels(folds[..n]), folds[n].1);
    }
  }

  lemma {:induction false} FoldAllModels(w: Work, folds: seq<(string, Usage)>)
    ensures SumModels(FoldAll(w, folds).st.byModel) == Add(SumModels(w.st.byModel), SumModels(folds))
  {
    if folds == [] {
      AddZero(SumModels(w.st.byModel));
    } else {
      var n := |folds| - 1;
      FoldAllModels(w, folds[..n]);
      SumOfLast(folds);
      AddSwap(SumModels(w.st.byModel), SumModels(folds[..n]), folds[n].1);
    }
  }

  lemma {:induction false} FoldAllFolded(w: Work, folds: seq<(string, Usage)>)
    ensures FoldAll(w, folds).st.folded == Add(w.st.folded, SumModels(folds))
  {
    if folds == [] {
      AddZero(w.st.folded);
    } else {
      var n := |folds| - 1;
      FoldAllFolded(w, folds[..n]);
      SumOfLast(folds);
      AddSwap(w.st.folded, SumModels(folds[..n]), folds[n].1);
    }
  }

  lemma {:induction false} FoldAllAcc(w: Work, folds: seq<(string, Usage)>)
    ensures FoldAll(w, folds).acc == Add(w.acc, SumModels(folds))
  {
    if folds == [] {
      AddZero(w.acc);
    } else {
      var n := |folds| - 1;
      FoldAllAcc(w, folds[..n]);
      SumOfLast(folds);
      AddSwap(w.acc, SumModels(folds[..n]), folds[n].1);
    }
  }

  /** Folding adds the entries' sum to the total, the per-model ledger, the folds and the accumulator. */
  lemma FoldAllSums(w: Work, folds: seq<(string, Usage)>)
    ensures var r, sum := FoldAll(w, folds), SumModels(folds);
            r.st.usage == Add(w.st.usage, sum) && SumModels(r.st.byModel) == Add(SumModels(w.st.byModel), sum) &&
            r.st.folded == Add(w.st.folded, sum) && r.acc == Add(w.acc, sum)
  {
    FoldAllUsage(w, folds);
    FoldAllModels(w, folds);
    FoldAllFolded(w, folds);
    FoldAllAcc(w, folds);
  }

  /** The parent's total, folds and accumulator grow by the sub-agent run's total exactly when that run
      kept no per-model ledger or one that sums to its total. */
  lemma ChildFoldedExactly(w: Work, child: RunState, name: string)
    ensures var r := FoldAll(w, ChildFolds(child, name));
            r.st.usage == Add(w.st.usage, child.usage) && r.st.folded == Add(w.st.folded, child.usage) &&
            r.acc == Add(w.acc, child.usage) <==>
            child.byModel == [] || SumModels(child.byModel) == child.usage
    ensures child.byModel != [] ==> ChildFolds(child, name) == child.byModel
    ensures child.byModel == [] && child.usage.prompt == child.usage.completion == child.usage.total == 0 ==>
              ChildFolds(child, name) == []
    ensures child.byModel == [] && child.usage != Usage(0, 0, 0) ==>
              ChildFolds(child, name) == [("sub-agent:" + name, child.usage)]
  {
    FoldAllSums(w, ChildFolds(child, name));
    if child.byModel == [] && child.usage != ZERO {
      assert ChildFolds(child, name)[1..] == [];
    }
  }

  /** The per-model ledger sums to the run total. */
  predicate Modelled(st: RunState) {
    st.usage == SumModels(st.byModel)
  }

  /** Journal and sub-agent folds add up to the run total. */
  predicate Covered(st: RunState) {
    st.usage == Add(SumSteps(st.steps), st.folded)
  }

  lemma RecordKeepsJournal(st: RunState, id: CallId)
    ensures Increasing(st.steps) ==> Increasing(Record(st, id).steps)
    ensures SumSteps(Record(st, id).steps) == SumSteps(st.steps)
    ensures MaxStep(Record(st, id).steps) == MaxStep(st.steps)
    ensures |Record(st, id).steps| == |st.steps|
  {
    if st.steps != [] {
      var n := |st.steps| - 1;
      var steps := Record(st, id).steps;
      assert steps[..n] == st.steps[..n];
    }
  }

  lemma OpenStepKeepsJournal(st: RunState, usage: Usage)
    ensures var st' := OpenStep(st, MaxStep(st.steps) + 1, usage);
            (Increasing(st.steps) ==> Increasing(st'.steps)) &&
            SumSteps(st'.steps) == Add(SumSteps(st.steps), usage) &&
            MaxStep(st'.steps) == MaxStep(st.steps) + 1
  {
    var st' := OpenStep(st, MaxStep(st.steps) + 1, usage);
    assert st'.steps[..|st.steps|] == st.steps;
    forall i | 0 <= i < |st.steps|
      ensures st.steps[i].number <= MaxStep(st.steps)
    {
      assert st.steps[i] in st.steps;
    }
  }
}
