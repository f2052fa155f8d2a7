# Verified models of the graphorin agent runtime, its channels and its benchmark harnesses

This project models, in Dafny, the stateful and arithmetic core of graphorin and proves what it
keeps over every input, every run and every interleaving. `dafny verify dfyconfig.toml` checks it all.

- **Agent runs.** One agent instance owns a family of generators that share closure variables
  (in-flight flag, steering, follow-ups, abort, queued compactions). A run is a state machine whose
  moves are the points at which the generator suspends; the caller's public calls land between any
  two moves, and each move carries what the outside world decides (model replies, tool outcomes,
  throws, teardown). `Transcript`, `Compaction`, `RunStates`, `Approvals`, `Resume` and `Ledgers`
  model the helpers a move uses, `WalkExact`, `DirectiveExact` and `RepairExact` say outright what a
  walk, a directive and the handoff repair do, `ResumeExact` exactly when a cancelled or resumed state
  is what its comments promise, and `Completion` what is left to answer; `RunLoop` is the machine,
  `RunSteps` what each move does and `RunEffects` what it leaves alone; `RunCalm`, `RunSafety`,
  `RunAccepted`, `RunEvents`, `RunBooks` and `RunTermination` are what each move keeps; `AgentRuns`,
  `AgentOrder`, `AgentSignals`, `AgentIdle`, `AgentBooks`, `AgentSafety` and `AgentAccepted` lift that to
  every execution of an agent, and `AgentFleet` to any number of instances that resume each other's
  states; `AgentInstance` is the object with its mutable fields.
- **Channel pairing.** `Pairing` (sequential histories), `PairingChannels` (non-interference),
  `AccessControl` (the controller and its store as objects), `PairingRace`,
  `PairingRaceSafety`, `PairingRaceHistory` and `PairingRaceChannels` (every store call and clock read
  its own step, any number of calls in flight).
- **LRU cache.** `Lru` (the cache over an insertion-ordered map, inclusion) and `LruRecency`
  (refinement of a time-stamp cache, retention).
- **Recalled facts.** `FactBlock` (entity decoding and escaping) and `FactScan` (the tag scan and the
  parse/print round trip).
- **Words.** Hash, seeds and generators on 32-bit words, with wrap-around written out.
- **Benchmarks.** `IngestCache`, `Aggregates`, `RetailWorld`, and `Decimals`, which the last two share.
- `Options`, `Sets` and `Strings` hold what several modules use.

Conventions: message contents are opaque except for what pairs tool calls; ids, models and texts are
strings; times are integers; token counts are naturals; rates are reals.

## Where the code and its own comments disagree

The model follows the code. Each point names the theorem that says, for all inputs, when the comment
is right, and an input at which it is not.

- The transcript check accepts an id announced again after its result, although its comment asks for
  a *later* result (`ReopenedIdSlipsThrough`, exact difference in `DocumentedExactly`).
- The compactor calls its snap always transcript-safe. The spliced transcript is acceptable exactly
  when the preserved tail is acceptable on its own (`SpliceAcceptedExactly`, `UngroupedSeedBreaks`);
  for the grouped transcripts the loop keeps it always is (`SpliceKeepsGrouping`).
- A failed run is documented never to re-enter the provider loop. It returns failed exactly unless a
  directive decides every approval pending on it, because decisions reset the status before the
  guard reads it (`FailedRunReenters`). The transcript it then carries is acceptable exactly when the
  decided calls complete it (`FailedRunEntersExactly`, run-through in `FailedRunStrandsGrant`).
- Abort with the default `deny` policy is documented to leave a resumable transcript. It is acceptable
  exactly when every pending id was announced and nothing else is open (`DenyAcceptedExactly`); with
  ids of the children's own, when no sub-agent run is parked (`DenyRepairsExactly`,
  `DenyStrandsParkedRun`).
- A granted call is skipped as already run exactly when its id is journaled and answered in the
  buffer (`SkippedExactly`), so a provider that reuses an id gets its call skipped
  (`ReusedIdIsNeverRun`).
- The guard before the loop is meant to stop dangling calls. It lets one through exactly on a state
  that neither failed nor waits and still owes an answer (`GuardFailsExactly`). No state the agent
  hands out in a clean execution is like that; a state object abandoned while approvals are collected
  (`AbandonedStateSlipsThrough`), or left by a resume that threw (`ThrownResumeSlipsThrough`), is.
- A write-ahead intent is resumable exactly when the directive leaves every parked run an undecided
  approval (`IntentResumableExactly`, `IntentStrandsPark`).
- A run cut by the stop condition is documented to fail; one that entered the loop completed or
  aborted keeps its old status (`CutRunsReported`, `CompletedRunCut`).
- Clean-up "on every exit path" happens exactly on the paths that reached the guarded region
  (`LeaksExactly`, `BlockedRunLeaks`).
- Follow-ups queued before a start with a malformed budget are lost (`FollowUpsTaken`).
- A pairing-code collision is documented to fail loudly; it silently deletes the other peer's request
  and can pair the wrong peer (`CollisionExactly`, `CollisionMisdirects`).
- The pending cap holds exactly while one check is in flight (`ConcurrentCap`, `BoundReached`), and
  a code is granted twice only if its approvals overlap or it is issued twice (`OneTimeApproval`,
  `OverlapRegrants`).
- The sequential prune of expired requests is unobservable (`PruneIsUnobservable`). Interleaved, a check
  sees another channel's prune exactly when a row it reads expired between its own clock reading and
  the pruning one (`PruneSeenExactly`), and may then issue a second code (`PruneIssuesTwice`); without
  such steps channels do not interfere (`ChannelsInterleaveFreely`).
- The unit sample is documented in (-1, 1); -1 is reached, by exactly one seed (`UnitRange`).

## Model

| member | source | states |
|---|---|---|
| Transcript.AssertWellFormedTranscript | examples/secure-replay-agent/src/scripted-provider.ts:90-113 | The two-set pass accepts exactly the transcripts without orphan and with every announced id resolved; a rejection names the first orphan, or the dangling ids without repetition |
| Transcript.DocumentedExactly | examples/secure-replay-agent/src/scripted-provider.ts:83-89 | The documented rule is what the pass decides plus: no id is announced behind its last result |
| Transcript.ReopenedIdSlipsThrough | examples/secure-replay-agent/src/scripted-provider.ts:83-113 | A concrete transcript the pass accepts and the documented rule forbids |
| Transcript.GroupedIsDocumented | examples/secure-replay-agent/src/scripted-provider.ts:83-113 | The grouped form the agent loop keeps implies both rules |
| Transcript.ScanVerdict | examples/secure-replay-agent/src/scripted-provider.ts:83-113 | For a transcript in grouped form up to its last calls: the documented rule holds exactly when no call is open, and the pass accepts exactly when every open id was answered earlier |
| Transcript.ToolsAccepted | examples/secure-replay-agent/src/scripted-provider.ts:90-113 | Any transcript followed by any tool results is accepted exactly when the results answer announced ids and leave no announced id unanswered |
| Transcript.CutAtNonTool | packages/memory/src/context-engine/compaction/compactor.ts:177-189 | Cutting a grouped transcript in front of any non-tool message leaves two grouped parts |
| Transcript.CollectResolved | packages/agent/src/runtime/handoff.ts:72-80 | The first pass collects exactly the ids answered behind an announcement |
| Transcript.SanitizeHandoffSeed | packages/agent/src/runtime/handoff.ts:71-108 | The repaired seed is always accepted, and the repair changes exactly the seeds that are not |
| Transcript.SalvageAccepted | packages/agent/src/runtime/handoff.ts:62-108 | For every transcript the repaired one has no orphan and no dangling call |
| Transcript.SalvageFixpoint | packages/agent/src/runtime/handoff.ts:62-108 | The repair is the identity exactly on accepted transcripts |
| RepairExact.RepairExactly | packages/agent/src/runtime/handoff.ts:71-108 | The repaired seed lists, in order, exactly the results that are no orphans, the assistant messages that have text, no calls or an answered call, with their text and their answered calls in order, and every other message |
| Compaction.Leading | packages/agent/src/runtime/messages.ts:160-171 | The pinned prefix is the longest one of system messages that are not an earlier summary |
| Compaction.CountLeadingSystemMessages | packages/agent/src/runtime/messages.ts:160-171 | The loop counts the pinned prefix |
| Compaction.SnapBoundary | packages/memory/src/context-engine/compaction/compactor.ts:176-189 | The loop stops at the greatest cut not after the positional one whose tail does not start on a tool message |
| Compaction.CarryUsers | packages/memory/src/context-engine/compaction/compactor.ts:193-215 | The carried turns are the last user turns in order, unless they are the whole window; the rest is counted as dropped |
| Compaction.Compact | packages/agent/src/runtime/run-compaction.ts:195-225 | There is nothing to trim exactly when no cut is left; else the buffer is the prefix, the summary, the last user turns of the removed part in order, the untouched rest behind the last cut, and the essentials if any; grouped whenever the input was |
| Compaction.SpliceExactly | packages/memory/src/context-engine/compaction/compactor.ts:173-300 | The same of the value the run's compactions use, by indices: where the cut is, which turns are carried and where each part stands |
| Compaction.SpliceKeepsGrouping | packages/memory/src/context-engine/compaction/compactor.ts:173-232 | For all windows, cuts and carried turns, compaction never separates a call from its result |
| Compaction.SpliceAcceptedExactly | packages/memory/src/context-engine/compaction/compactor.ts:177-191 | For all windows, cuts and carried turns, the compacted transcript is accepted exactly when the preserved tail is on its own |
| Compaction.UngroupedSeedBreaks | packages/memory/src/context-engine/compaction/compactor.ts:177-191 | An accepted but ungrouped transcript that compaction turns into one with an orphan |
| RunStates.AddModel | packages/agent/src/run-state/index.ts:547-590 | The per-model ledger grows in sum by exactly the call's usage |
| RunStates.AddModelExactly | packages/agent/src/run-state/index.ts:547-590 | A charge goes to the first entry of its model and no other, or to a new one at the end |
| RunStates.FoldAllSums | packages/agent/src/runtime/messages.ts:288-315 | Folding a sub-agent run's entries adds their sum to the total, the per-model ledger, the folds and the accumulator alike |
| RunStates.ChildFoldedExactly | packages/agent/src/runtime/messages.ts:275-315 | The parent grows by exactly the sub-agent run's total exactly when that run kept no per-model ledger or one that sums to its total |
| RunStates.OpenStepKeepsJournal | packages/agent/src/factory.ts:877-899 | A step numbered one past the greatest keeps the journal increasing and adds its usage once |
| RunStates.RecordKeepsJournal | packages/agent/src/runtime/tool-call-walk.ts:73-343 | Recording a completed call changes neither numbers, usage nor length of the journal |
| RunStates.MaxIsLast | packages/agent/src/factory.ts:663 | In an increasing journal the seed of the step counter is the last step's number |
| Approvals.ProcessStepToolCalls | packages/agent/src/runtime/tool-call-walk.ts:73-343 | The batching loop computes the walk of `WalkExactly` and reports suspension exactly when something was gated or parked |
| WalkExact.WalkExactly | packages/agent/src/runtime/tool-call-walk.ts:73-343 | For every step: the approvals added are, in call order, one per gated call and every approval of each parked sub-run with its own id one level deeper; the calls answered and journaled, in dispatch order; what is charged; suspended exactly when a call is gated or parks |
| WalkExact.AnsweredOnce | packages/agent/src/runtime/tool-call-walk.ts:73-343 | Each call that is neither gated nor parked is answered exactly once, and no other |
| Approvals.WalkOutcome | packages/agent/src/runtime/tool-call-walk.ts:73-343 | For every mix of outcomes, a suspended walk leaves a resumable state owing exactly its own pending and parked calls, and any other walk leaves nothing owed |
| Approvals.WalkKeepsStatus | packages/agent/src/runtime/tool-call-walk.ts:73-343 | A walk that does not suspend does not touch the run's status |
| Resume.EmitCancellation | packages/agent/src/runtime/run-gates.ts:134-168 | The run ends failed exactly under `fail` with approvals pending and aborted else; `deny` answers every pending id in order and clears them, the others keep transcript and approvals |
| Resume.CancelExactly | packages/agent/src/runtime/run-gates.ts:134-168 | The same of the value the run's moves use, for every state and policy |
| Resume.CancelSafe | packages/agent/src/runtime/run-gates.ts:134-168 | Cancelling keeps a state resumable or fails it; denying with nothing parked leaves nothing owed |
| Resume.ProcessResumeDirective | packages/agent/src/runtime/approvals.ts:153-282 | The loop computes the split of `DirectiveSplit` |
| Resume.LookupExactly | packages/agent/src/runtime/approvals.ts:189-197 | An approval is decided exactly when an entry names its id and path, and then as the last such entry says |
| DirectiveExact.DirectiveSplit | packages/agent/src/runtime/approvals.ts:153-282 | By the indices of the decisions: which calls are denied, dispatched and left pending, each in order; a sub-run is routed to exactly when an approval mirrored from it is named; the run is set going exactly when nothing is left; nothing else changes |
| DirectiveExact.DispatchExactly | packages/agent/src/runtime/approvals.ts:308-402 | Dispatch opens one journal step behind the last, without usage, that records the granted calls, and answers them in order |
| DirectiveExact.ReparkExactly | packages/agent/src/runtime/approvals.ts:494-516 | A sub-run that parks again has its stale approvals replaced by its current ones, one level deeper, and suspends the parent |
| DirectiveExact.SettleExactly | packages/agent/src/runtime/approvals.ts:518-566 | A sub-run that ends is charged, answered, recorded and unparked; the parent's approvals and status stay |
| DirectiveExact.TargetsExactly | packages/agent/src/runtime/approvals.ts:447-470 | Routing throws exactly when some routed sub-run is not parked or has no target |
| DirectiveExact.ResumeOutcomes | packages/agent/src/factory.ts:499-658 | A resume returns at once if the run is failed once decided, throws exactly on a missing target, returns exactly if it still waits, and enters the loop else |
| Resume.ResumeSafe | packages/agent/src/factory.ts:499-658 | Whatever the directive and the sub-runs do, a state left by a run that did not fail stays resumable or enters the loop with nothing owed |
| Resume.GuardFacts | packages/agent/src/factory.ts:652-658 | Once routed sub-runs are visited, the guard lets through only states that owe nothing |
| Resume.StillUncovered | packages/agent/src/runtime/approvals.ts:192-197 | Approvals remain undecided exactly when the directive does not cover them |
| ResumeExact.DenyAcceptedExactly | packages/agent/src/runtime/run-gates.ts:145-156 | For every state, denying on abort yields an accepted transcript exactly when every pending id was announced and nothing else announced lacks an answer |
| ResumeExact.DenyRepairsExactly | packages/agent/src/runtime/run-gates.ts:145-156 | For a resumable state whose children use ids of their own, that is exactly when no sub-agent run is parked |
| ResumeExact.DenyStrandsParkedRun | packages/agent/src/runtime/run-gates.ts:145-156 | A resumable state whose default abort re-enters the loop with a transcript providers reject |
| ResumeExact.GrantedExactly | packages/agent/src/runtime/approvals.ts:227-260 | A directive dispatches exactly the pending calls it grants that are not both journaled and answered |
| ResumeExact.SkippedExactly | packages/agent/src/runtime/approvals.ts:234-245 | A granted call is skipped exactly when its id is journaled and already answered in the buffer |
| ResumeExact.ReusedIdIsNeverRun | packages/agent/src/runtime/approvals.ts:234-245 | A state in which a reused call id makes a granted call count as already run |
| ResumeExact.EnteredExactly | packages/agent/src/factory.ts:499-658 | For every state, directive and outcome of the sub-runs, the transcript a resume enters the loop with is accepted exactly when the decided calls and parks complete the one it started from |
| ResumeExact.FailedRunReenters | packages/agent/src/factory.ts:501-623 | Every failed run returns still failed exactly unless a directive decides everything pending on it |
| ResumeExact.FailedRunEntersExactly | packages/agent/src/factory.ts:501-658 | A failed run that re-enters carries an accepted transcript exactly when its pending calls and parked parents complete the one it failed with |
| ResumeExact.FailedRunStrandsGrant | packages/agent/src/factory.ts:618-634 | Two directives on a failed run after which the loop is entered with a call unanswered |
| ResumeExact.GuardExactly | packages/agent/src/factory.ts:618-658 | Without decisions the loop is entered exactly when the run neither failed nor waits, with its transcript unchanged, accepted exactly when every open id was answered earlier |
| ResumeExact.GuardFailsExactly | packages/agent/src/factory.ts:642-658 | The guard lets a dangling call through exactly on states that neither failed nor wait and still owe an answer |
| ResumeExact.AbandonedStateSlipsThrough | packages/agent/src/factory.ts:652-658 | A state abandoned while collecting approvals passes the guard with a call unanswered |
| ResumeExact.ThrownResumeSlipsThrough | packages/agent/src/runtime/approvals.ts:429-473 | A state left by a resume that threw for a missing target passes the guard with the parked call unanswered |
| ResumeExact.IntentResumableExactly | packages/agent/src/runtime/approvals.ts:308-402 | The write-ahead intent is resumable exactly when the directive leaves every parked run an undecided approval |
| ResumeExact.IntentStrandsPark | packages/agent/src/runtime/approvals.ts:308-402 | A resumable state and a directive whose intent is not resumable |
| Completion.WalkCompletes | packages/agent/src/runtime/tool-call-walk.ts:73-343 | Whatever becomes of the calls of a step, reused ids included, its walk leaves exactly the pending approvals' calls between the transcript and acceptance |
| Completion.CancelCompletes | packages/agent/src/runtime/run-gates.ts:134-168 | Cancelling fails the run or keeps that, under deny exactly on states it repairs |
| Completion.ResumeCompletes | packages/agent/src/factory.ts:499-658 | So does every resume, whatever the directive and the sub-runs do, of every state but a failed one that the directive does not decide completely, which comes back failed |
| Ledgers.WalkBooked | packages/agent/src/runtime/tool-call-walk.ts:73-343 | The walk adds no step and books sub-agent usage to total, per-model ledger and accumulator alike |
| Ledgers.CancelBooked | packages/agent/src/runtime/run-gates.ts:134-168 | Cancelling changes no journal entry and no usage |
| Ledgers.SettleAllBooked | packages/agent/src/runtime/approvals.ts:429-573 | Settling any number of parked sub-runs keeps journal order and ledgers |
| Ledgers.ResumeBooked | packages/agent/src/factory.ts:499-658 | A whole resume keeps the journal increasing and the ledgers balanced, total and accumulator growing alike |
| RunSteps.TopExactly | packages/agent/src/factory.ts:672-745 | At the step count the run leaves the loop; an abort cancels it under the last policy, deny if none; else it opens the next step and takes all steering exactly when it has no token limit or its total is within it; else it fails, and throws exactly under the throwing budget |
| RunSteps.BudgetExactly | packages/agent/src/runtime/run-budget.ts:32-52 | A budget is accepted exactly when its limits are finite and not negative and its unpriced reaction is known |
| RunSteps.RequestExactly | packages/agent/src/factory.ts:755-814 | Each send, fallback and retry makes one request with the buffer and the request-only messages behind it; only a retry touches the work, once per chain |
| RunSteps.ShrinkExactly | packages/agent/src/runtime/run-compaction.ts:195-225 | A compaction rewrites buffer and state alike as `SpliceExactly` says, or leaves them alone |
| RunSteps.PreparedInOrder | packages/agent/src/runtime/run-compaction.ts:85-144 | A step's compactions are applied one behind the other |
| RunSteps.ReplyExactly | packages/agent/src/factory.ts:856-903 | A reply is charged to its model and the accumulator, committed with its text and calls to buffer and state, and journaled under the step's number |
| RunSteps.ChainFailExactly | packages/agent/src/factory.ts:815-826 | A failed chain fails the run, its transcript untouched, charging the truncated call to total and model alone |
| RunSteps.ChainEndsExactly | packages/agent/src/factory.ts:831-853 | A chain without a finished reply is cancelled exactly if an abort arrived, else failed; a throw fails the run with its work as it is |
| RunSteps.WalkDoneExactly | packages/agent/src/factory.ts:907-962 | A walk that asks for nothing closes the step; else the run ends suspended, or cancelled under the policy in force if an abort raced it |
| RunSteps.CloseExactly | packages/agent/src/factory.ts:964-988 | A step with calls loops; one without continues with the verifiers' feedback as a user turn, or completes the run |
| RunSteps.ScreenExactly | packages/agent/src/factory.ts:462-480 | A blocked input fails the run; otherwise it enters the loop as it is |
| RunSteps.ResumptionExactly | packages/agent/src/factory.ts:499-663 | A resume finishes, enters the loop or throws as its outcome says, with the outcome's work, counter and pinned prefix |
| RunSteps.FinalizeExactly | packages/agent/src/runtime/run-gates.ts:437-505 | Finalizing fails a run still running, or completed with a rejected output, and touches nothing else |
| RunSteps.FinishExactly | packages/agent/src/runtime/run-finish.ts:47-73 | Finishing settles queued compactions and reports the run's status |
| RunSteps.NothingExcluded | packages/agent/src/factory.ts:462-853 | Up to a reply every outcome the source can meet at a point is a move of the model |
| RunSteps.NothingExcludedLater | packages/agent/src/factory.ts:856-1028 | So is every one after it |
| RunEffects.MoveHasEffect | packages/agent/src/factory.ts:462-1028 | Every move of a run, from every state, changes program point, journal, ledgers, events, span and listener only as its kind allows, and books each reply once |
| RunSafety.MoveKeepsSound | packages/agent/src/factory.ts:671-1028 | Every clean move of a run keeps: each request made carries a grouped, accepted transcript with nothing pending, and each state left is resumable or failed |
| RunSafety.WalkKeepsSound | packages/agent/src/factory.ts:907-962 | So does the walk, also when an abort raced its suspension |
| RunSafety.ShrinkKeepsReady | packages/agent/src/runtime/run-compaction.ts:195-225 | Compaction inside a step keeps buffer and state mirrored, grouped and prefix-pinned |
| RunSafety.ShrinkAllKeepsReady | packages/agent/src/runtime/run-compaction.ts:85-144 | So does any number of compactions in one step |
| RunSafety.FailedStays | packages/agent/src/factory.ts:618-623 | A failed state that the directive does not decide completely comes back failed |
| RunAccepted.ConcatAccepted | examples/secure-replay-agent/src/scripted-provider.ts:90-113 | Accepted transcripts one behind the other are accepted |
| RunAccepted.GroupedTrimFits | packages/memory/src/context-engine/compaction/compactor.ts:177-191 | In a grouped transcript every compaction preserves a tail that is accepted on its own |
| RunAccepted.MoveKeepsPassing | packages/agent/src/factory.ts:671-1028 | Every move keeps the run on accepted transcripts if each compaction's preserved tail is accepted on its own and a default abort racing a walk meets approvals it can deny |
| RunEvents.MoveKeepsGrammar | packages/agent/src/factory.ts:733-745 | Every move keeps the event stream a viable prefix of the grammar |
| RunEvents.ParseMeaning | packages/agent/src/factory.ts:745 | The parser's states mean: agent.start, then start/end pairs with consecutive numbers |
| RunEvents.ReturnedGrammar | packages/agent/src/factory.ts:970-1039 | A stream parsed to the end is agent.start, alternating consecutive step.start/step.end with at most the last open, agent.end last |
| RunBooks.MoveKeepsJournal | packages/agent/src/factory.ts:663-899 | Every move keeps the journal's step numbers strictly increasing and the counter in step with it |
| RunBooks.MoveKeepsAccounts | packages/agent/src/factory.ts:815-899 | Every move keeps each of: total = start + accumulator + what a failed chain left out; total = journal + folds + what a failing step left out; total = per-model ledger; nothing is left out before the run ends |
| RunBooks.MoveKeepsSpend | packages/agent/src/factory.ts:685-732 | With a ceiling, the total stays within the larger of its value at loop entry and ceiling plus one step |
| RunBooks.EnteredStep | packages/agent/src/factory.ts:671 | The guarded region is entered exactly at the loop |
| RunTermination.MoveTerminates | packages/agent/src/factory.ts:672-988 | Every move strictly lowers a natural rank |
| RunTermination.RankDrops | packages/agent/src/factory.ts:672-988 | Journaling one step below the stop count outweighs any change of program point |
| RunTermination.MoveKeepsStatus | packages/agent/src/factory.ts:672-988 | Inside the loop a run still has the status it entered with |
| RunTermination.CutRunReported | packages/agent/src/runtime/run-gates.ts:442-451 | A cut run ends failed exactly when it entered running, or completed with a rejected output; else it keeps its old status |
| RunTermination.CompletedRunCut | packages/agent/src/runtime/run-gates.ts:442-451 | Every completed state at the stop count, resumed, is cut at once and reported completed again |
| AgentRuns.ApplyGated | packages/agent/src/factory.ts:289-320 | Every public call and every run event keeps the in-flight flag equal to the number of live runs, and an idle agent has nothing queued to settle |
| AgentRuns.SingleFlight | packages/agent/src/factory.ts:278-320 | In every execution at most one run is live at any time |
| AgentRuns.PerformIsExecution | packages/agent/src/factory.ts:289-320 | Performing actions yields an agent exactly when an execution of them ends in it |
| AgentSignals.SignalsExactly | packages/agent/src/factory.ts:289-356 | In every execution a live run serves the arguments of its own start and sees exactly the aborts since: the last one's policy, and tripped exactly if its parent's signal was or an abort arrived |
| AgentIdle.SilencedAlike | packages/agent/src/factory.ts:278-298 | Executions that differ only in steers and aborts taken while idle stay alike, action by action |
| AgentIdle.IdleSignalsNeverSeen | packages/agent/src/factory.ts:284-298 | Leaving all idle steers and aborts out of any execution leaves every run, event stream, request and delivered state as it was |
| AgentIdle.RejectedStartsNeverSeen | packages/agent/src/factory.ts:289-295 | Leaving all rejected starts out of any execution leaves shared variables, deliveries, logs and every other run as they were |
| AgentOrder.QueuesConserved | packages/agent/src/factory.ts:297-335 | In every execution steered messages are, in order, drained once, dropped once or queued; follow-ups likewise; each compaction is settled exactly once by the time the agent is idle |
| AgentOrder.SteeringDelivered | packages/agent/src/factory.ts:736-743 | In every execution each batch logged as drained into a run was appended to that run's buffer and state at one step, and at no other |
| AgentOrder.FollowUpsTaken | packages/agent/src/factory.ts:327-340 | In every execution each entry of the ride log has one start, and no other, that took the queue as it then was into its own run, or lost it exactly because its budget was malformed; a resumed run takes nothing |
| AgentOrder.FollowUpsRide | packages/agent/src/factory.ts:327-335 | In every execution, when a fresh run is seeded its buffer and state are the system prompt, the follow-ups queued at its own start, and its input |
| AgentOrder.ExecutionOrderly | packages/agent/src/factory.ts:322-1028 | In every execution each generator keeps the grammar, the rank bound and its span bookkeeping |
| AgentOrder.ReturnedStreamsGrammatical | packages/agent/src/factory.ts:462-1039 | In every execution each run that returned produced a grammatical stream |
| AgentOrder.RunsAreBounded | packages/agent/src/factory.ts:672-988 | In every execution no generator makes more moves than a bound in step limit and provider count |
| AgentOrder.SpendBounded | packages/agent/src/factory.ts:685-732 | In every execution a run with a ceiling, whose own steps cost at most so much, never exceeds the larger of its total at loop entry and the ceiling plus one step, whatever other runs spend |
| AgentOrder.CutRunsReported | packages/agent/src/runtime/run-gates.ts:442-451 | In every execution a run cut by the stop condition ends failed exactly when it entered the loop running or its completed output is rejected, else with the status it entered with |
| AgentOrder.LeaksExactly | packages/agent/src/factory.ts:1004-1021 | Open spans and parent listeners are exactly those of live runs and of runs that ended before the guarded region |
| AgentOrder.BlockedRunLeaks | packages/agent/src/factory.ts:444-480 | For every fresh run whose input is blocked, an execution to its return that leaves a span open, and its listener if a parent signal was given |
| RunCalm.ResumeGuarded | packages/agent/src/factory.ts:499-658 | Whatever it decides, a resume of a state with approvals pending only when suspended, aborted or failed enters the loop with none pending |
| RunCalm.MoveKeepsCalm | packages/agent/src/factory.ts:462-1028 | Every move keeps: approvals pending only when suspended, aborted or failed, and none of these inside the loop |
| AgentBooks.MoveKeepsSolvent | packages/agent/src/factory.ts:815-899 | Every move keeps everything journaled unless the run failed with nothing pending, and then all but what its failing step charged |
| AgentBooks.ExecutionKept | packages/agent/src/factory.ts:322-1028 | Each promise about a state (approvals pend only where the guard sees them, journal increases, per-model ledger sums, journal sums unless failed with nothing pending) holds of all runs and delivered states in every execution whose resumed states keep it, whichever agent handed them out |
| AgentBooks.RequestsWaitForApprovals | packages/agent/src/factory.ts:618-658 | If resumed states have approvals pending only when suspended, aborted or failed, a provider is asked only with no approval pending, and never by a failed or suspended run |
| AgentBooks.JournalsIncrease | packages/agent/src/factory.ts:663-899 | If the journals of resumed states increase, so do those of all runs and delivered states |
| AgentBooks.ModelLedgersSum | packages/agent/src/run-state/index.ts:547-590 | If the per-model ledgers of resumed states sum to their totals, so do those of all runs and delivered states, failed ones included |
| AgentBooks.DeliveredBooks | packages/agent/src/factory.ts:856-899 | If resumed states have everything journaled unless they failed with nothing pending, so have all states handed out; and every run that entered the loop has all but what its failing step charged |
| AgentBooks.LoopHeadShares | packages/agent/src/factory.ts:856-858 | At every loop head of every execution the total is what the run began with plus its accumulator, whatever state was resumed; per-model ledger and journal plus folds agree with it if they did in resumed states |
| AgentBooks.FailedChainGap | packages/agent/src/factory.ts:815-826 | In every execution, from a failed chain to its end a run's total exceeds what it began with plus its accumulator by exactly the truncated call |
| AgentBooks.SharesExactly | packages/agent/src/factory.ts:815-858 | In every execution a run's total is what it began with plus its accumulator exactly when no failed chain of it spent tokens |
| AgentBooks.FailedRunNeverRuns | packages/agent/src/factory.ts:618-623 | In every execution a run started from a failed state that its directive does not decide completely makes no request, journals no step, spends nothing and stays failed, to its end |
| AgentSafety.ExecutionSafe | packages/agent/src/factory.ts:322-1028 | Over every clean execution, resuming only failed or resumable states whoever handed them out, all runs are sound and every state handed out is failed or resumable |
| AgentSafety.RequestsWellFormed | packages/agent/src/factory.ts:621-658 | Over every clean chain of runs, suspends, aborts and resumes each provider request carries a transcript that meets the documented rule, with no sub-run parked |
| AgentAccepted.ExecutionPasses | packages/agent/src/factory.ts:322-1028 | Over every fair execution all runs stay on accepted transcripts and every state handed out failed or is accepted once its approvals are decided |
| AgentAccepted.RequestsAccepted | packages/agent/src/factory.ts:621-658 | Over every fair execution the two-set pass accepts each provider request: seeds, steers and follow-ups need only be accepted (as every repaired handoff seed is), ids may be reused, and failed runs may be decided if their approvals complete their transcript |
| AgentFleet.ChainKept | packages/agent/src/runtime/run-finish.ts:62-73 | Over every interleaving of instances that resume only states some instance handed out, all promises hold of every run and delivered state of every instance |
| AgentFleet.ChainWaitsForApprovals | packages/agent/src/factory.ts:618-658 | In every such chain no instance asks a provider while an approval is unresolved, or from a failed or suspended run |
| AgentFleet.ChainBooks | packages/agent/src/factory.ts:856-899 | In every such chain each state handed out has an increasing journal, a per-model ledger that sums to its total, and, unless it failed with nothing pending, a journal plus folds that does |
| AgentFleet.ChainSafe | packages/agent/src/factory.ts:322-1028 | In every such chain with tidy callers all instances stay safe |
| AgentFleet.ChainWellFormed | packages/agent/src/factory.ts:621-658 | In every such chain with tidy callers each provider request carries a transcript that meets the documented rule, with no sub-run parked |
| AgentFleet.ChainPasses | packages/agent/src/runtime/run-finish.ts:62-73 | Over every chain across instances with even callers all instances stay on accepted transcripts |
| AgentFleet.ChainAccepted | packages/agent/src/factory.ts:621-658 | In every such chain the two-set pass accepts each provider request of each instance |
| AgentInstance.Instance.constructor | packages/agent/src/factory.ts:226-240 | A new agent is idle with empty queues |
| AgentInstance.Instance.Steer | packages/agent/src/factory.ts:1045-1054 | Appends to the steering queue and changes nothing else |
| AgentInstance.Instance.FollowUp | packages/agent/src/factory.ts:1056-1065 | Appends to the follow-up queue and changes nothing else |
| AgentInstance.Instance.Abort | packages/agent/src/factory.ts:1067-1070 | Records the policy and trips the current controller |
| AgentInstance.Instance.Compact | packages/agent/src/runtime/agent-surface.ts:113-138 | Queues into an active run, else answers at once and changes nothing |
| AgentInstance.Instance.IsBusy | packages/agent/src/factory.ts:236-237 | Busy exactly while a run is in flight |
| AgentInstance.Instance.SettleManualCompacts | packages/agent/src/factory.ts:313-318 | Settles every queued compaction once, in order |
| AgentInstance.Instance.EnterRun | packages/agent/src/factory.ts:289-356 | Entry refuses, fails on a malformed budget after taking the follow-ups, or opens the run, with the shared variables of each case |
| AgentInstance.Instance.ExitRun | packages/agent/src/factory.ts:309-320 | Exit clears the flags, settles the queue, and releases span and listener only for a run that reached the guarded region |
| Pairing.AfterUnique | packages/store-sqlite/src/pairing-store.ts:58-72 | In every history codes are unique per channel |
| Pairing.CheckExactly | packages/channels/src/access.ts:189-222 | For every store and check: decision, expiry and each row afterwards |
| Pairing.ApproveExactly | packages/channels/src/access.ts:239-257 | For every store and approval: the peer granted and each row afterwards |
| Pairing.CollisionExactly | packages/channels/src/access.ts:210-220 | An issuing check keeps another peer's live request exactly when channel or code differ |
| Pairing.LiveExactly | packages/channels/src/access.ts:189-257 | At every point the unexpired requests are exactly the codes issued and not yet approved or issued again |
| Pairing.GrantedExactly | packages/channels/src/access.ts:239-257 | An approval pairs a peer exactly when it names an unexpired outstanding code of that peer |
| Pairing.PairedExactly | packages/channels/src/access.ts:249-264 | A peer is paired exactly when some approval paired it with no revocation since |
| Pairing.AllowedExactly | packages/channels/src/access.ts:189-264 | A check allows exactly when an approval consumed an unexpired code issued to that very peer with no later revocation |
| Pairing.GrantsNeedIssues | packages/channels/src/access.ts:239-257 | Two grants of one code need two issues of it, each before its grant |
| Pairing.CodesPairOnce | packages/channels/src/access.ts:239-257 | With fresh codes each code pairs at most once |
| Pairing.ChallengeIsStable | packages/channels/src/access.ts:194-221 | A peer is shown a code as not new exactly while it is outstanding with that expiry, and a new one only when none is |
| Pairing.CollisionMisdirects | packages/channels/src/access.ts:210-220 | A history in which the approved code shown to one peer pairs another |
| Pairing.SequentialCap | packages/channels/src/access.ts:203-208 | In every sequential history unexpired requests per channel never exceed the cap |
| PairingChannels.ChannelsDoNotInterfere | packages/channels/src/access.ts:189-257 | Histories that agree on a channel's operations and times, up to an injective renaming of codes, answer alike on it up to that renaming |
| PairingChannels.ProjectionAnswers | packages/channels/src/access.ts:189-257 | Dropping all other channels' operations, and starting from any store alike on this one, changes no answer |
| PairingChannels.PruneIsUnobservable | packages/channels/src/access.ts:203-205 | Pruning expired requests changes no later answer on any channel |
| PairingChannels.RenamedAnswers | packages/channels/src/access.ts:189-257 | Renaming codes injectively renames the answers and nothing else |
| AccessControl.Tables.UpsertRequest | packages/store-sqlite/src/pairing-store.ts:58-72 | Replaces on both the peer key and the channel's code |
| AccessControl.Tables.FindRequestByCode | packages/store-sqlite/src/pairing-store.ts:83-89 | Returns the row of the channel that holds the code, if any |
| AccessControl.Tables.DeleteRequest | packages/store-sqlite/src/pairing-store.ts:91-96 | Removes exactly the channel's rows with the code |
| AccessControl.Tables.CountPending | packages/store-sqlite/src/pairing-store.ts:98-104 | Counts the channel's unexpired requests |
| AccessControl.Tables.PruneExpired | packages/store-sqlite/src/pairing-store.ts:106-115 | Removes exactly the expired requests |
| AccessControl.Controller.Create | packages/channels/src/access.ts:155-178 | Fails exactly for pairing without a store or an allowlist policy without entries |
| AccessControl.Controller.InAllowlist | packages/channels/src/access.ts:180-187 | Listed exactly when some entry matches channel, peer and, if given, account |
| AccessControl.Controller.CheckPeerPairing | packages/channels/src/access.ts:155-222 | Store and decision are those of the sequential check under the policy's time to live and cap, an hour and three by default |
| AccessControl.Controller.CheckIdentity | packages/channels/src/access.ts:224-237 | Each policy's decision; only pairing touches the store |
| AccessControl.Controller.ApproveCode | packages/channels/src/access.ts:239-257 | Consumes the code even when expired, pairs only when not, keeps codes unique |
| AccessControl.Controller.RevokePeer | packages/channels/src/access.ts:259-264 | Unpairs the peer and changes nothing else |
| PairingRace.NextKeepsCap | packages/channels/src/access.ts:189-222 | Each step keeps live requests plus checks about to write within the bound |
| PairingRace.ConcurrentCap | packages/channels/src/access.ts:189-222 | With at most C checks of a channel in flight, interleaved at every await with approvals, revocations and the clock, its unexpired requests never exceed maxPending - 1 + C |
| PairingRace.BoundReached | packages/channels/src/access.ts:203-208 | For every cap and every C some run meets that bound exactly, so the cap itself holds exactly for C = 1 |
| PairingRaceSafety.CheckAlone | packages/channels/src/access.ts:189-222 | A check whose steps nothing interrupts is the sequential check |
| PairingRaceSafety.ApprovalAlone | packages/channels/src/access.ts:239-257 | An approval whose steps nothing interrupts is the sequential approval |
| PairingRaceHistory.PairedInOrder | packages/channels/src/access.ts:189-264 | Under every interleaving a peer is paired exactly when it was issued a code, then an approval on its channel looked that code up, then read the clock before its expiry, then paired the peer, with no revocation since |
| PairingRaceSafety.OneTimeApproval | packages/channels/src/access.ts:111-116 | However everything else interleaves, a code granted by two approvals was approved twice at once or issued twice on its channel |
| PairingRaceSafety.OverlapRegrants | packages/channels/src/access.ts:239-257 | Overlapping approvals of any live code both grant it and undo a revocation made between their ends |
| PairingRaceChannels.PruneSeenExactly | packages/store-sqlite/src/pairing-store.ts:106-115 | A prune changes what a check looks up exactly when its own row, and what it counts exactly when some row of its channel, expired between its clock reading and the pruning one |
| PairingRaceChannels.PruneIssuesTwice | packages/channels/src/access.ts:194-221 | From every world in which a peer has a live request, an interleaving with another channel's check that issues it a second code while the first would have been shown again |
| PairingRaceChannels.ChannelsInterleaveFreely | packages/channels/src/access.ts:189-264 | Under every interleaving in which no check of a channel sees such a prune, and no code is drawn that an approval on it already named, its checks, approvals and pairings are those of the run of its own events |
| Lru.LRUCache.TryNew | examples/three-agent-harness/src/lru-fixture.ts:53-57 | Succeeds exactly for positive integer capacities |
| Lru.LRUCache.Get | examples/three-agent-harness/src/lru-fixture.ts:58-64 | Returns the value and moves a present key to the recent end; a miss inserts nothing |
| Lru.LRUCache.Set | examples/three-agent-harness/src/lru-fixture.ts:65-72 | Keeps the last `capacity` entries of the touched contents |
| Lru.LRUCache.HasKey | examples/three-agent-harness/src/lru-fixture.ts:73-75 | Present exactly when a lookup finds a value |
| Lru.Shape | examples/three-agent-harness/src/lru-fixture.ts:51-79 | After any trace keys are distinct and size is at most the capacity |
| Lru.Inclusion | examples/three-agent-harness/src/lru-fixture.ts:58-72 | For every trace and c <= d the contents at c are a subsequence of those at d, equal while c is not full |
| Lru.HitsGrow | examples/three-agent-harness/src/lru-fixture.ts:58-72 | A larger cache hits wherever a smaller one does, with the same value |
| LruRecency.RefinesStamped | examples/three-agent-harness/src/lru-fixture.ts:58-72 | Over every trace the ordered map lists a time-stamp cache that evicts the oldest stamp, oldest first |
| LruRecency.Retention | examples/three-agent-harness/src/lru-fixture.ts:58-72 | A key keeps its last written value while fewer than capacity distinct other keys were operated on since |
| FactBlock.DecodeIsOnePass | examples/assistant-bot/src/stub-provider.ts:147 | The three ordered global replacements equal one left-to-right decoder, for every text |
| FactBlock.DecodeUndoesEscape | packages/memory/src/context-engine/engine.ts:923-925 | Decoding undoes escaping of `&`, `<`, `>` for every text (section 4.6 of XML 1.0) |
| FactBlock.EscapedHasNoBrackets | packages/memory/src/context-engine/engine.ts:915-925 | Escaped texts and attributes hold no angle bracket |
| FactScan.MatchExactly | examples/assistant-bot/src/stub-provider.ts:143 | The scan at a position yields a body and rest exactly when the text splits there as the expression reads |
| FactScan.CutExactly | examples/assistant-bot/src/stub-provider.ts:143 | The lazy part of the expression ends at the first closing tag and nowhere else |
| FactScan.TrimMeaning | examples/assistant-bot/src/stub-provider.ts:147 | Trimming removes white space at both ends and nothing else |
| FactScan.ExtractRecalledFacts | examples/assistant-bot/src/stub-provider.ts:141-151 | The exec loop collects the trimmed decoded bodies of all leftmost matches |
| FactScan.RenderedFactsRecovered | packages/memory/src/context-engine/engine.ts:901-913 | From a rendered block behind any text that opens no fact tag, extraction returns exactly the trimmed facts in order, then whatever the text behind it yields |
| FactScan.NothingInjected | examples/assistant-bot/src/stub-provider.ts:135-141 | With nothing injected the result is empty |
| Words.Fnv1a | examples/memory-graph-recall/src/stub-embedder.ts:71-78 | The loop computes the hash fold of the text's code units |
| Words.PublishedHashes | examples/memory-graph-recall/src/stub-embedder.ts:71-78 | The hashes of the empty text and of "a" are the published 32-bit FNV-1a values |
| Words.BitsExactly | examples/memory-graph-recall/src/stub-embedder.ts:73-85 | Or and exclusive or, bit by bit |
| Words.MixBijective | examples/memory-graph-recall/src/stub-embedder.ts:74-75 | Each hash step is a bijection on words, with its inverse |
| Words.CollisionsComeFromPrefixes | examples/memory-graph-recall/src/stub-embedder.ts:71-78 | Texts with a common ending collide exactly when the parts before it do |
| Words.OneUnitApart | examples/memory-graph-recall/src/stub-embedder.ts:71-78 | Texts of equal length differing in exactly one code unit never collide |
| Words.SeedsDistinct | examples/memory-graph-recall/src/stub-embedder.ts:56 | Two dimensions share a seed exactly when equal modulo 2^32 |
| Words.SeedKnown | examples/memory-graph-recall/src/stub-embedder.ts:56 | The seeds of the zero hash are the multiples of the published multiplier |
| Words.ScrambleZero | examples/memory-graph-recall/src/stub-embedder.ts:83-85 | The output word is zero for the zero state and no other |
| Words.Round1Known | examples/memory-graph-recall/src/stub-embedder.ts:83 | An output that fixes the first round's shift |
| Words.ScrambleKnown | examples/memory-graph-recall/src/stub-embedder.ts:83-85 | An output that fixes the shifts and the mask of the other round and of the end |
| Words.UnitRange | examples/memory-graph-recall/src/stub-embedder.ts:80-87 | Samples lie in [-1, 1), and -1 is produced by exactly one seed |
| Words.SampleKnown | examples/memory-graph-recall/src/stub-embedder.ts:82-86 | A sample is twice the output fraction of the incremented seed less one |
| Words.RawVector | examples/memory-graph-recall/src/stub-embedder.ts:52-58 | Component i is the sample of the i-th seed of the text's hash |
| Words.Mulberry32.Next | benchmarks/memory-sim/src/runner.ts:33-39 | Advances the state by the increment modulo 2^32 and returns a fraction in [0, 1) |
| Words.Mulberry32.Draw | benchmarks/memory-sim/src/runner.ts:31-40 | The k-th of n calls returns the fraction of the k-th state |
| Words.FullPeriod | benchmarks/memory-sim/src/runner.ts:34 | The state recurs after two call counts exactly when they are equal modulo 2^32 |
| Words.EveryStateVisited | benchmarks/memory-sim/src/runner.ts:34 | Every word is the state at some call below 2^32 |
| IngestCache.Cache.IngestConversation | benchmarks/longmemeval/src/runner.ts:634-679 | Returns the cached pending ingest or starts and caches one |
| IngestCache.OneAttemptEach | benchmarks/longmemeval/src/runner.ts:630-679 | Under every interleaving each haystack has at most one ingest attempt |
| IngestCache.SharedOutcome | benchmarks/longmemeval/src/runner.ts:630-701 | Cases that share a haystack share its memory or its failure |
| IngestCache.AnswersAreFresh | benchmarks/longmemeval/src/runner.ts:681-700 | Every answer equals that of a fresh per-case ingest |
| IngestCache.SettledStays | benchmarks/longmemeval/src/runner.ts:635-636 | A settled ingest never changes and is never retried |
| IngestCache.RejectionIsFinal | benchmarks/longmemeval/src/runner.ts:635-636 | After a rejected ingest no case of that haystack is ever answered |
| IngestCache.NotifiedOncePerIngest | benchmarks/longmemeval/src/runner.ts:597-602 | The hook fires once per successful ingest |
| Aggregates.ComputeBenchAggregates | benchmarks/longmemeval/src/runner.ts:896-931 | The single pass computes the aggregates defined by counting |
| Aggregates.Tally | benchmarks/longmemeval/src/runner.ts:900-916 | The buckets hold exactly the totals and passes per iteration, and the abstention counts |
| Aggregates.CountExactly | benchmarks/longmemeval/src/runner.ts:900-916 | Counts are numbers of positions |
| Aggregates.AbstainedExactly | benchmarks/longmemeval/src/runner.ts:914-915 | A case abstained exactly when its first abstention score passed |
| Aggregates.SummaryExactly | benchmarks/longmemeval/src/runner.ts:917-929 | Every reported rate is its quotient of counts, in ascending order of iterations |
| Aggregates.IterationExactly | benchmarks/longmemeval/src/runner.ts:904-905 | A positive iteration is read exactly from ids ending in the suffix and its digits |
| Aggregates.IterationReads | packages/evals/src/runner.ts:114 | The suffix appended to a repeated case is read back as its iteration |
| Aggregates.TotalsSum | benchmarks/longmemeval/src/runner.ts:900-910 | Bucket totals sum to the number of results and passes to the number of passing results |
| Aggregates.OneRatePerIteration | benchmarks/longmemeval/src/runner.ts:917-919 | One rate per iteration number read |
| Aggregates.RatesInUnit | benchmarks/longmemeval/src/runner.ts:917-929 | All rates lie in [0, 1]; there is no abstention rate exactly when there are no such cases |
| Aggregates.MeanBetween | benchmarks/longmemeval/src/runner.ts:920 | The mean lies between the least and the greatest rate |
| Aggregates.EqualSizesMean | benchmarks/longmemeval/src/runner.ts:920 | With iterations of equal size the mean is the overall pass rate |
| Aggregates.VarianceZero | benchmarks/longmemeval/src/runner.ts:921-924 | The sample variance is zero exactly when all rates are equal |
| Aggregates.VarianceExactly | benchmarks/longmemeval/src/runner.ts:921-924 | One less than the number of rates times the variance is the sum of squares less the number times the squared mean |
| Aggregates.OrderDoesNotMatter | benchmarks/longmemeval/src/runner.ts:896-931 | All outputs are the same for any permutation of the results |
| Decimals.DecimalReads | benchmarks/tool-agent/src/world.ts:134 | Decimal printing read back gives the number |
| RetailWorld.Store.Add | benchmarks/tool-agent/src/world.ts:110-114 | Appends the line and changes nothing else |
| RetailWorld.Store.Place | benchmarks/tool-agent/src/world.ts:132-138 | Turns a non-empty cart into the next order; an empty cart is an error that changes nothing |
| RetailWorld.Store.Charge | benchmarks/tool-agent/src/world.ts:146-158 | Fails once if seeded, before looking at the order; else pays the order or reports it unknown |
| RetailWorld.LinesConserved | benchmarks/tool-agent/src/world.ts:92-162 | Over every sequence of calls the orders' lines followed by the cart are the lines added, in order |
| RetailWorld.IdsDistinct | benchmarks/tool-agent/src/world.ts:134-135 | Order ids are pairwise distinct |
| RetailWorld.OrdersOnlyAdvance | benchmarks/tool-agent/src/world.ts:92-162 | An order keeps id and lines, and never goes from paid back to placed |
| RetailWorld.PaidExactly | benchmarks/tool-agent/src/world.ts:154-157 | An order is paid exactly when some charge naming it was answered as charged |
| RetailWorld.FailureFiresOnce | benchmarks/tool-agent/src/world.ts:147-152 | The seeded failure answers exactly the first charge |

## Left out

- Costs in money and the unpriced-ceiling check at run time: the budget's limits are validated, but only
  the token ceiling is enforced.
- Optional usage legs (reasoning and cache tokens): usage is prompt, completion and total.
- Stop conditions other than a step count; the termination bound is stated for the step count.
- Guardrail rewrites, lateral-leak screening, verdict stamps, reasoning retention and message contents:
  guardrails, verifiers and output validation may pass, block or throw.
- Auto-induction, causality monitoring, taint tracking and tracing attributes; spans are only counted.
- Checkpoints other than the write-ahead intent, and serialisation of the run state.
- Lifecycle events other than start and end of runs and steps, including the external event queue.
- The string encoding of nested sub-run paths: a path is a sequence of call ids.
- Compaction strategies other than summarising; the summary text is chosen freely.
- What a sub-agent run does inside: the parent sees it settle with a usage or park with approvals.
- The scripted provider's turn cursor and the assistant bot's turn planners: lookups in fixed tables.
- The run state as an object shared with the caller: states are values, so a caller sees one when
  agent.end carries it, and what a thrown or abandoned resume leaves in the caller's object is stated
  by `ThrownResumeSlipsThrough` and `AbandonedStateSlipsThrough` alone.
- RequestsWellFormed: the documented rule asks for more than acceptance, so it is stated for grouped
  inputs, resumed states that are failed or resumable, gated calls that reuse no id journaled and
  answered, no complete decision of a failed run, and no default abort racing a walk that parked a
  sub-run; `RequestsAccepted` has what the pass itself decides without these.
- The code generator's alphabet and randomness: drawn codes are inputs of each check.
- Listing paired peers, and the store's row order.
- Normalising and scaling the embedding vector, and the square root of the variance: reals without
  roots; floating-point rounding is not modelled.
- Integers read from an id's digits beyond 2^53 are exact in the model.
- Catalog search and input schemas of the retail tools; the snapshot, a projection of the modelled state.
- I/O, SQL, clocks, the network, providers and tools: their outcomes are inputs of the steps.
