# BuildSmart: a verified model of its agent-team kernel

BuildSmart's `scripts/agent_team` drives GitHub Issues from QUEUED to DONE with several worker threads, reviewer
threads, a lead's command line and the owner's own merges, all meeting in one transactional store. This project models
that kernel and a few smaller algorithms around it, and proves what they promise.

* `Lifecycle`, `StateStore`, `Locks`: the transition table, the store as a class whose methods are its transactions
  (each proved against a function on the abstract value), and the lock manager. The event log rebuilds the store.
* `Scheduler`: the greedy admission planner as a loop, and its agreement with the real lock table.
* `Reconciliation`: the pass that puts a store in order after a crash at any point.
* `MergePolicy`, `MergeProtocol`: CI evidence, the risk policy, and one Issue's whole life (ROOT, child or rollup) as a
  state machine in which the tick, worker and reviewer threads, `owner_merge` calls, people, crashes and GitHub
  interleave between any two transactions, each deciding on the row it read itself. `StepFrames`: what each
  kind of step may touch. `ProtocolRuns`: stretches of its runs.
* `MergeSafety`, `AttemptBudget`, `RollupRuns`, `BranchMerges`, `OwnerBase`, `MergeAudit`: what every run of that
  machine keeps, and runs in which what was meant to be kept is not.
* `Text`, `IssueSections`, `SectionRoundTrip`: the outer form of an Issue body, and exactly when printed sections can be
  read back.
* `ContractFields`, `ContractRules`, `ContractBudget`, `IssueContract`: every field of the Issue contract, the whole
  parser and the printer. `ContractShape`, `ContractPrint`, `ContractRoundTrip`: what accepted contracts look like, what
  their print looks like, and exactly when the contract stored as `render_body(c)` parses to `c`. `ContractWriting`,
  `ContractSamples`: bodies for the contracts that are lost.
* `Budget`, `TaggedRules`, `Narrowing`: what regression budgets mean, when one rule stays within another, and what the
  check that a child Issue only narrows its ROOT is worth for whole budgets.
* `Periods`: protected calendar periods and the automaton that enters and leaves them, with both saves of an ending.
* `EventStream`: the browser's incremental event-stream decoder.
* `AuthoritativeMerge`: BuildSmart's required rooms against a model's program, and the area reserved for them.
* `RowLayout`: the parametric design generator over exact real numbers.

Loops of the source are methods with loops, proved against specification functions; lemmas about those functions carry
the results. SQLite transactions are atomic steps. GitHub, the clock, processes and threads enter as inputs or as
actions of the environment.

## Where the code promises less than it seems to

* The stored contract is not always the admitted one. An accepted contract is lost in print exactly when it names no
  domain (a lone comma is accepted), has a target ending in a backtick, has a section with an empty label, or has a text
  that holds a Windows line end or a row that opens a heading, a last row of just `###` at the end of the body excepted
  (`ContractRoundTrip.RoundTripExactly`). Each kind is admitted from a whole body (`ContractSamples.EveryKindIsLost`,
  `ContractSamples.FiveBodies`).
* The repair budget can be exceeded. A reviewer or worker thread dispatches another run on a row it read earlier; if the
  attempt count has grown since, the run is one too many. The excess is never more than the number of such late
  dispatches (`AttemptBudget.AttemptsStayBounded`), and it happens (`AttemptBudget.LateDispatchExceedsTheBudget`).
* "A rollup is never a worker task", says a comment, but red CI, a merge conflict, a lead's repair order and a smoke
  revert do not ask (`RollupRuns.RollupsRunNoWorker`, `RollupRuns.RedCiPutsAWorkerOnARollup`).
* The orchestrator's merge into an integration branch is guarded by the head SHA but not by the base. It reaches another
  branch exactly when the pull request is retargeted between its two requests and not put back
  (`BranchMerges.BranchMergesEscapeExactly`); the orchestrator does that itself when it finishes the branch's rollup
  (`BranchMerges.OwnRetargetingEscapes`).
* The owner's merge is guarded by the head SHA but not by the base, and the count before it compares the local worktree,
  not the merged head, with what was last fetched of the base, not with the base. A merge is behind its base by exactly
  what the last touch after the count left missing, or, without one, what the count overlooked
  (`OwnerBase.OwnerMergesBaseExactly`): the base was unreadable, which counts as not behind, or changed, or not fetched
  as it stood, or the worktree held commits the head did not, as after a base update whose push failed. Each of these
  ways but a changed base is shown as a run (`OwnerBase.OwnersMergeBehindTheirBase`).
* The owner's merge is audited after it is recorded. The audit exists exactly when the process lives to write it
  (`MergeAudit.OwnerMergesAreAuditedExactly`, `MergeAudit.AnUnauditedMerge`). For merges found outside, evidence that
  cannot be read counts as a bypass (`MergeAudit.FoundMergesAreAudited`).
* `_budget_wider` accepts any tagged rule under any tagged rule (`Narrowing.TaggedMayEscape`), GAINED is not compared
  (`Narrowing.GainedMayWiden`), and a child's `0` is refused under `none` and under a tagged rule although it is within
  both (`TaggedRules.ComparisonExactly`). When a child that passes is really within its ROOT's budget:
  `Narrowing.NarrowingIsSoundExactly`.
* A period that another process ends early is entered again exactly when a tick comes before that process has also saved
  through which day it is closed (`Periods.EndedEarlyExactly`). Between the orchestrator's own two saves the same gap is
  harmless while its clock goes forwards (`Periods.ForwardPeriodsOnlyAdvance`). A closed period is entered again exactly
  when the lead starts it (`Periods.LeadReentersExactly`), and the orchestrator's next tick repeats such a start of a
  period that is not closed (`Periods.LeadStartIsRepeated`).
* The worker slots bound the Issues in WORKING (`Scheduler.CapacityBoundsWorkingIssues`), but a claimed Issue whose
  worker has not begun is not counted, so the last slot can be given away twice (`Scheduler.LastSlotTwice`). The slots
  are exceeded by at most the Issues claimed at the snapshot (`Scheduler.SlotsExceededAtMost`).
* Reconciliation frees the locks of live work whose last sign of life is old, worker thread or not
  (`Reconciliation.LiveWorkIsLeftAlone`).
* A single storey with a negative number of bedrooms is laid out with a living room of negative area, and with minus one
  the generator divides by zero (`RowLayout.EveryFloorIsTiled`, `RowLayout.GenerateDesign`).
* Stripping the entry room leaves a specification its own validator rejects
  (`AuthoritativeMerge.StrippedEntryIsInvalid`).

## Model

| member | source | states |
|---|---|---|
| Lifecycle.MergedOnlyThroughTheGates | scripts/agent_team/state_machine.py:31-48 | on every legal path from the states Issues are first tracked in, rollups at PR_OPEN included, the three states right before MERGED are CI, REVIEW, READY_FOR_OWNER |
| StateStore.Store.Track | scripts/agent_team/state_store.py:278-307 | tracking inserts an unknown Issue with its event and only refreshes contract fields of a known one |
| StateStore.Store.Transition | scripts/agent_team/state_store.py:313-348 | compare-and-set: legality and expected states are checked inside the transaction; a refusal changes nothing |
| StateStore.Store.Update | scripts/agent_team/state_store.py:350-364 | field updates leave state, locks and log alone |
| StateStore.Store.TryAcquireLocks | scripts/agent_team/state_store.py:394-409 | all requested rows or none; the result lists, requirement by requirement, the rows it conflicts with |
| StateStore.Store.ReleaseLocks | scripts/agent_team/state_store.py:411-417 | removes exactly the Issue's rows and logs their number |
| StateStore.LogReplaysToLiveState | scripts/agent_team/state_store.py:253-417 | after any run of transactions the log alone rebuilds every Issue's state and the lock table, and every replayed move is legal |
| StateStore.LocksStaySafe | scripts/agent_team/state_store.py:386-417 | in every reachable store two Issues hold one name only if both hold it shared |
| StateStore.AcquireKeepsLockSafe | scripts/agent_team/state_store.py:386-409 | an acquisition, re-acquisition or upgrade keeps the lock table safe |
| StateStore.AcquireAllOrNothing | scripts/agent_team/state_store.py:394-409 | a conflicting acquisition changes nothing, a successful one grants every request and takes no other Issue's row |
| StateStore.TransitionIsCompareAndSet | scripts/agent_team/state_store.py:313-348 | a transition happens exactly when the Issue is tracked, its state is expected and every expected state may legally move there; otherwise nothing changes |
| StateStore.RefreshKeepsLinkage | scripts/agent_team/state_store.py:278-307 | tracking a known Issue again keeps its state, attempts, kind and ROOT |
| StateStore.AcquireReplays | scripts/agent_team/state_store.py:394-409 | a grant's event replays to the new lock table |
| StateStore.TransitionReplays | scripts/agent_team/state_store.py:313-348 | a transition's event replays to the new state |
| Locks.ComputeEffectiveLocks | scripts/agent_team/locks.py:33-53 | the loop over domains computes the effective locks |
| Locks.EffectiveLocksRespectConfig | scripts/agent_team/locks.py:33-53 | explicit locks win; otherwise every lock implied by a domain is asked for; names configured concurrent are shared, others keep their mode |
| Locks.Check | scripts/agent_team/locks.py:61-69 | the non-mutating check answers yes exactly when neither the table nor a simulated grant conflicts |
| Locks.RecoverStale | scripts/agent_team/locks.py:78-103 | recovery leaves exactly the rows of Issues that are not stale |
| Locks.RecoveryFreesOnlyTheDead | scripts/agent_team/locks.py:78-103 | recovery never frees a tracked WORKING or REVIEW Issue whose last sign of life is within the limit |
| Locks.RecoveryKeeps | scripts/agent_team/locks.py:78-103 | after recovery every lock owner is tracked and in a resource-holding state; no lock is added |
| Locks.RecoveryReplays | scripts/agent_team/locks.py:78-103 | recovery keeps the log and the table in agreement |
| Scheduler.Plan | scripts/agent_team/scheduler.py:44-113 | the planning loop computes the plan of the ranked queue |
| Scheduler.SortKeeps | scripts/agent_team/scheduler.py:69-72 | ranking is a permutation of the queue in rank order |
| Scheduler.PlanIgnoresInputOrder | scripts/agent_team/scheduler.py:67-113 | two queues with the same Issues get the same plan |
| Scheduler.LowerRankedNeverInterfere | scripts/agent_team/scheduler.py:67-113 | adding lower-ranked Issues changes no higher-ranked decision |
| Scheduler.PlanIsWorkConserving | scripts/agent_team/scheduler.py:73-111 | an Issue left waiting with its dependencies satisfied still fails a lock, capacity or cap check against the final starts |
| Scheduler.PlanWithinCapacity | scripts/agent_team/scheduler.py:56-111 | all starts of one plan together fit workers, weight, machine limits and domain caps, each with its dependencies satisfied |
| Scheduler.CapsBoundIssuesInFlight | scripts/agent_team/scheduler.py:56-111 | whenever a plan starts an Issue of a capped domain, the Issues of that domain in flight in the store and those the plan starts are together within the cap |
| Scheduler.CapacityBoundsWorkingIssues | scripts/agent_team/resource_manager.py:84-115 | with the snapshot of its store, a plan that starts anything keeps Issues in WORKING and starts within the worker slots, and with the reviewers within the weighted capacity |
| Scheduler.LastSlotTwice | scripts/agent_team/orchestrator.py:755-817 | two plans in a row, each with its own snapshot, start and claim an Issue each for the one free slot if the first worker has not begun |
| Scheduler.SlotsExceededAtMost | scripts/agent_team/orchestrator.py:755-817 | with a fresh snapshot, whichever starts are claimed, the Issues claimed or at work are those before and the claimed starts, and exceed the worker slots at most by the Issues claimed before |
| Scheduler.SelectStarts | scripts/agent_team/orchestrator.py:755-785 | the loop that keeps starts within the bound on active ROOTs |
| Scheduler.RootsStayBounded | scripts/agent_team/orchestrator.py:755-785 | active plus newly started ROOTs never exceed the larger of the bound and what was already active |
| Scheduler.Claim | scripts/agent_team/orchestrator.py:787-799 | claiming is a transition then an acquisition, undone to QUEUED on conflict |
| Scheduler.ClaimsNeverConflict | scripts/agent_team/scheduler.py:88-109 | claiming any sub-selection of the planned starts, in order, through the real table never conflicts; each ends CLAIMED with its locks in the modes asked for, and the table agrees with the simulated grants |
| Reconciliation.Reconcile | scripts/agent_team/reconciliation.py:39-124 | the whole pass, then stale-lock recovery |
| Reconciliation.ReconcileIssue | scripts/agent_team/reconciliation.py:48-70 | one Issue's step for lost workers, unstarted claims and dead reviewers |
| Reconciliation.ReconcileOutside | scripts/agent_team/reconciliation.py:71-107 | one Issue's step for pull requests merged or closed and Issues closed outside |
| Reconciliation.OneSettles | scripts/agent_team/reconciliation.py:47-107 | a step attempts only legal transitions, settles its Issue, spends no attempt, touches no other Issue and takes no lock |
| Reconciliation.ReconcileRecovers | scripts/agent_team/reconciliation.py:39-124 | from any store: no CLAIMED Issue without its worker, no thread-less WORKING Issue unless alive and fresh, every lock owned by a tracked resource-holding Issue |
| Reconciliation.LiveWorkIsLeftAlone | scripts/agent_team/reconciliation.py:39-118 | over the whole reconciliation visibly live work keeps its row, and its locks exactly when its last sign of life is within the limit |
| Reconciliation.PassReplays | scripts/agent_team/reconciliation.py:39-124 | reconciliation keeps the log and the store in agreement |
| MergePolicy.Collect | scripts/agent_team/ci_evidence.py:85-120 | the loop over check runs builds the evidence of the latest run per check |
| MergePolicy.LatestIsNewest | scripts/agent_team/ci_evidence.py:85-120 | the run kept for a check is the last one of the highest id |
| MergePolicy.GreenExactly | scripts/agent_team/ci_evidence.py:85-120 | CI is SUCCESS exactly when some check reported, the newest run of each required check completed with success, and no newest run is still going |
| MergePolicy.Decide | scripts/agent_team/merge_policy.py:63-104 | the loop sorts requirements into satisfied and missing; approval means none is missing |
| MergePolicy.ApprovalMeans | scripts/agent_team/merge_policy.py:44-104 | an approval with GitHub's gates implies green contexts, green CI and a review bound to that SHA where required, a recorded LOST allowance, and no unknown requirement |
| MergeSafety.EveryRunIsSafe | scripts/agent_team/orchestrator.py:734-2028 | every interleaving of the modelled steps keeps the safety invariant: rows, threads and calls hold only evidence that was seen and verdicts that were given |
| MergeSafety.WorkersAreTame | scripts/agent_team/orchestrator.py:836-996 | a worker thread, whatever it read and when, brings the Issue into none of CI, REVIEW and READY_FOR_OWNER |
| MergeSafety.GatesPassedKeep | scripts/agent_team/orchestrator.py:1155-1227 | the steps out of REVIEW, taken only with every gate green on the row the tick listed, keep the safety invariant |
| MergeSafety.CallMergeKeeps | scripts/agent_team/orchestrator.py:1934-1991 | the owner's merge request keeps the safety invariant: what it merged is justified by the evidence it was decided on |
| MergeSafety.OwnerMergesAreSafe | scripts/agent_team/orchestrator.py:1934-1991 | in every run an owner merge, a rollup's included, merges the current head that CI validated, contexts green, its base counted as not ahead if it could be read, approved at that SHA where required, lost allowance approved; for its base at the merge see `OwnerBase` |
| OwnerBase.ZeroOverlooks | scripts/agent_team/worktree_manager.py:206-208 | when the count is zero, the base's commits the head lacks are exactly those not fetched and those in the worktree only |
| OwnerBase.OwnerMergesBaseExactly | scripts/agent_team/orchestrator.py:1953-1981 | every owner merge in every run is behind its base by exactly what the last touch of head or base after the count left missing, or, without one, what the count overlooked; then it is behind only if the count was blind, and stale only after a failed fetch or a branch that moved between fetch and count; it lands on another base exactly when the last touch after the head was read left it there |
| OwnerBase.OwnersMergeBehindTheirBase | scripts/agent_team/orchestrator.py:1907-1981 | for every rollup with green gates, runs from first tracking that merge behind a base that is still the one read: it advances after the count, cannot be read, was not fetched, or was merged in the worktree whose push failed |
| MergeSafety.BranchMergesAreReviewed | scripts/agent_team/orchestrator.py:1205-1217 | in every run the orchestrator's own merges take the current head that CI validated and a reviewer approved |
| AttemptBudget.DispatchKeeps | scripts/agent_team/orchestrator.py:976-996 | a dispatch decided on an older row keeps the bound: the count has not grown since, or the dispatch counts as late |
| AttemptBudget.AttemptsStayBounded | scripts/agent_team/orchestrator.py:321-323 | in every run attempts never exceed one plus the repair budget plus ordered runs plus late dispatches, and are below that while a run is pending |
| AttemptBudget.LateDispatchExceedsTheBudget | scripts/agent_team/orchestrator.py:1829-1842 | a run from first tracking, for every budget of one or more, in which a reviewer's old row starts one run more than the budget allows |
| AttemptBudget.RateLimitedRunIsFree | scripts/agent_team/orchestrator.py:836-909 | from reading the row over start, end, give-back and requeue, with anything in between that leaves the count alone, a rate-limited run changes the attempt count by zero |
| RollupRuns.RollupsRunNoWorker | scripts/agent_team/orchestrator.py:734-742 | in every run without a fixer dispatch, repair order or smoke revert a rollup is never claimed, has no worker and uses no attempt |
| RollupRuns.RedCiPutsAWorkerOnARollup | scripts/agent_team/orchestrator.py:1095-1101 | a run from first tracking in which red CI puts a worker on a rollup |
| BranchMerges.EveryRunKeepsBranches | scripts/agent_team/orchestrator.py:1277-1282 | in every run the branches of ROOTs, of the period, of the rollup and of all own merges are integration branches |
| BranchMerges.RetargetedSince | scripts/agent_team/orchestrator.py:1371-1385 | while the tick holds a retargeted pull request, it retargeted it by an action of its own and has not let go since |
| BranchMerges.BaseFollows | scripts/agent_team/orchestrator.py:1384-1387 | from the retargeting on, the base is another one exactly when a step moved it off the branch and none put it back |
| BranchMerges.BranchMergesEscapeExactly | scripts/agent_team/orchestrator.py:1371-1405 | every merge of the orchestrator is meant for an integration branch, and reaches another exactly when the pull request was moved off it after the retargeting, by somebody or by finishing that branch's rollup |
| BranchMerges.OwnRetargetingEscapes | scripts/agent_team/orchestrator.py:1612-1625 | a run from first tracking in which finishing the rollup sends the orchestrator's own merge of a child into main |
| MergeAudit.FoundMergesAreAudited | scripts/agent_team/orchestrator.py:2114-2130 | in every run each found merge entered has an audit of its own: bypass exactly when a required context was not green or not readable, and then reported |
| MergeAudit.OwnerMergesAreAuditedExactly | scripts/agent_team/orchestrator.py:1985-1989 | an owner's merge gets its audit exactly when its call writes it before its process dies; the audit judges the merged SHA, whose protected contexts were green |
| MergeAudit.AnUnauditedMerge | scripts/agent_team/orchestrator.py:1985-1989 | a run from first tracking that merges a rollup into MERGED, after which no continuation audits it |
| IssueSections.SplitSections | scripts/agent_team/issue_contract.py:356-365 | the loop over heading matches builds the ordered dictionary of sections |
| SectionRoundTrip.ScanQuiet | scripts/agent_team/issue_contract.py:356-365 | a page none of whose texts opens a heading reads back as it is |
| SectionRoundTrip.HeadingTakes | scripts/agent_team/issue_contract.py:74-74 | a heading takes its label from its own row or, over line ends, from the next row that has text |
| SectionRoundTrip.ScanPage | scripts/agent_team/issue_contract.py:356-365 | everything read from any printed page is a whole quiet text or a strictly shorter piece of one that is not |
| SectionRoundTrip.SoundSurvives | scripts/agent_team/issue_contract.py:625-645 | sound sections read back in order, unchanged |
| SectionRoundTrip.UnsoundLoses | scripts/agent_team/issue_contract.py:356-365 | if any text is unsound, some text that could be misread is really lost |
| SectionRoundTrip.SectionsSurviveExactly | scripts/agent_team/issue_contract.py:356-365 | printed sections get their texts back if and only if no text holds a Windows line end or a heading row |
| ContractFields.ParseCriteria | scripts/agent_team/issue_contract.py:375-394 | the loop over lines, refusing malformed, short and repeated criteria |
| ContractFields.CriteriaAreValid | scripts/agent_team/issue_contract.py:375-394 | accepted criteria have distinct ids and trimmed one-line texts of eight characters or more |
| ContractFields.CriteriaReadBack | scripts/agent_team/issue_contract.py:629-629 | written criteria read back as they are |
| ContractFields.ParseDomains | scripts/agent_team/issue_contract.py:397-410 | the loop over items, refusing unknown domains and dropping repetitions |
| ContractFields.DomainsReadBack | scripts/agent_team/issue_contract.py:637-637 | a written nonempty list of domains reads back |
| ContractFields.ChoiceReadsBack | scripts/agent_team/issue_contract.py:413-418 | a written risk or resource class reads back |
| ContractFields.ParseDependencies | scripts/agent_team/issue_contract.py:421-438 | the loop over tokens, refusing itself and non-references, dropping repetitions |
| ContractFields.TokensReadBack | scripts/agent_team/issue_contract.py:632-632 | written dependencies read back |
| ContractRules.ParseLocks | scripts/agent_team/issue_contract.py:441-460 | the loop over entries, refusing malformed, unknown and repeated locks |
| ContractRules.LocksReadBack | scripts/agent_team/issue_contract.py:633-633 | written locks read back with their modes |
| ContractRules.ParseVerification | scripts/agent_team/issue_contract.py:497-528 | the loops over lines, specs and criteria; accepted only with evidence for every criterion |
| ContractRules.TargetsAreValid | scripts/agent_team/issue_contract.py:463-528 | accepted targets name a listed criterion and satisfy the rules of their kind |
| ContractRules.TargetReadsBack | scripts/agent_team/issue_contract.py:463-494 | a written target reads back if and only if it does not end in a backtick |
| ContractRules.TargetsReadBack | scripts/agent_team/issue_contract.py:630-630 | a written plan reads back if and only if no target ends in a backtick |
| ContractBudget.ParseBudget | scripts/agent_team/issue_contract.py:547-573 | the loop over lines and the defaults; unbounded LOST and LOST at LOW risk are refused |
| ContractBudget.BudgetIsValid | scripts/agent_team/issue_contract.py:531-573 | an accepted budget has one well-formed rule per key, in order |
| ContractBudget.LimitReadsBack | scripts/agent_team/issue_contract.py:531-544 | every well-formed limit reads back from its printed form |
| ContractBudget.BudgetReadsBack | scripts/agent_team/issue_contract.py:631-631 | a written budget reads back |
| IssueContract.ParseContract | scripts/agent_team/issue_contract.py:576-618 | the whole parser, composed of the loops above |
| ContractShape.ParsedIsWellFormed | scripts/agent_team/issue_contract.py:576-618 | every accepted contract is well formed in every field |
| ContractRoundTrip.PageGives | scripts/agent_team/issue_contract.py:625-645 | on a page that says what a well-formed contract says, the printed one above all, only missing domains and trailing backticks stop it from reading back |
| ContractRoundTrip.SurvivorsAreFaithful | scripts/agent_team/issue_contract.py:625-645 | a contract that reads back was faithful |
| ContractRoundTrip.FaithfulSurvives | scripts/agent_team/issue_contract.py:625-645 | a faithful contract reads back |
| ContractRoundTrip.RoundTripExactly | scripts/agent_team/orchestrator.py:190-193 | for every accepted contract, parsing its print with the same number and title gives it back if and only if it is faithful |
| ContractRoundTrip.ParsedContractsAreOrderly | scripts/agent_team/issue_contract.py:397-573 | parsed contracts meet what planning and narrowing assume: one rule per key, no domain or lock twice |
| ContractWriting.UnifyDos | scripts/agent_team/issue_contract.py:358-358 | a text whose line ends are all doubled to Windows ones is read as it was, Windows line ends of its own included |
| ContractWriting.ScanRaw | scripts/agent_team/issue_contract.py:356-365 | a page of indented texts without heading rows reads as those texts, trimmed |
| ContractWriting.EveryContractCanBeWritten | scripts/agent_team/issue_contract.py:576-618 | every well-formed contract without inner heading rows is accepted from some whole body, faithful or not |
| ContractWriting.UnfaithfulIsLost | scripts/agent_team/orchestrator.py:190-193 | every such unfaithful contract is accepted from a body, and its print parses to something else |
| ContractSamples.EveryKindIsLost | scripts/agent_team/issue_contract.py:397-573 | each kind of unfaithfulness, put into any writable contract, is accepted from a whole body and lost |
| ContractSamples.FiveBodies | scripts/agent_team/issue_contract.py:576-645 | five concrete contracts, one for each kind, that are accepted from a body and lost |
| Budget.Evaluate | scripts/agent_team/regression_budget.py:81-111 | the loop reports a violation for each key outside its rule, and the report passes exactly when it is within the budget |
| Budget.ChildScopeProblems | scripts/agent_team/issue_contract.py:201-223 | the list of problems is empty exactly when the child narrows the ROOT, and names each offending domain, lock and key |
| Budget.NotWiderIsPreorder | scripts/agent_team/issue_contract.py:226-239 | not-wider is reflexive and transitive |
| Budget.NotWiderIsInclusion | scripts/agent_team/issue_contract.py:226-239 | between untagged rules not-wider is semantic inclusion, but for `0` under `none` |
| Budget.NotWiderUnderTagged | scripts/agent_team/issue_contract.py:226-239 | a tagged ROOT rule covers an untagged child exactly when the child is not wider or is `0` |
| Budget.NarrowingIsSound | scripts/agent_team/issue_contract.py:201-239 | with no problems, a report within the child's rule is within the ROOT's, unless both are tagged |
| Budget.NarrowingCoversLocks | scripts/agent_team/issue_contract.py:209-215 | a narrowing child's locks are the ROOT's, exclusive only where the ROOT is |
| Budget.StatedIsEffective | scripts/agent_team/issue_contract.py:272-276 | with one rule per key the contract's rule and the evaluation's rule agree |
| TaggedRules.NumbersCovered | scripts/agent_team/regression_budget.py:57-78 | for all six operators, one numeric comparison implies another over all numbers that print exactly in the stated cases |
| TaggedRules.TextsCovered | scripts/agent_team/regression_budget.py:57-78 | the same over all texts in their dictionary order |
| TaggedRules.TagsAreInclusion | scripts/agent_team/regression_budget.py:57-111 | a tagged rule, its constant a number or a word, stays within another over all reports exactly when the field is the same and numbers, texts and flags are covered |
| TaggedRules.MixedPairs | scripts/agent_team/regression_budget.py:57-78 | where one constant is a number and the other a word, the numbers are covered exactly for the stated operators |
| TaggedRules.NumericTagsOverNumbers | scripts/agent_team/regression_budget.py:57-111 | over reports whose field is a number, tags with numeric constants are included exactly when the comparison of the numbers is covered |
| TaggedRules.ComparisonExactly | scripts/agent_team/issue_contract.py:226-239 | for every two rules a contract can state, inclusion over all reports is not-wider or a child's `0`, and the covering of the tags where both are tagged |
| Narrowing.NarrowingIsSoundExactly | scripts/agent_team/issue_contract.py:201-239 | for every child and ROOT that pass the check, all reports within the child's whole budget are within the ROOT's exactly when GAINED is covered and so is each pair of tags under a compared key |
| Narrowing.GainedMayWiden | scripts/agent_team/issue_contract.py:216-219 | any two scopes that pass, their GAINED rules restated in place, still pass with a child that may gain and a ROOT that may not; a report that only gains is then within the child's whole budget and not the ROOT's |
| Narrowing.TaggedMayEscape | scripts/agent_team/issue_contract.py:239-239 | any two scopes that pass, a compared rule restated in place by tags, still pass, with a report within the child's whole budget and not the ROOT's |
| Periods.PeriodContaining | scripts/agent_team/protected_periods.py:77-92 | the two loops find the maximal protected run around a day, or none exactly on an unprotected day |
| Periods.NextPeriod | scripts/agent_team/protected_periods.py:94-99 | the first period at or after a day within the horizon |
| Periods.PeriodUnique | scripts/agent_team/protected_periods.py:77-92 | every day of a period maps to that period |
| Periods.PeriodsAreSeparated | scripts/agent_team/protected_periods.py:77-92 | two periods are equal or separated by an unprotected day |
| Periods.PeriodBranchIsIntegration | scripts/agent_team/protected_periods.py:88-92 | a period's branch is an integration branch |
| Periods.PeriodKeeper.CheckPeriodAt | scripts/agent_team/orchestrator.py:1336-1354 | a tick ends and closes a past period and starts a current one that is not closed |
| Periods.KeeperStaysOk | scripts/agent_team/orchestrator.py:1336-1369 | every sequence of ticks, ends and restarts that does not come between the two saves of an ending keeps the keeper consistent |
| Periods.StartedPeriodsOnlyAdvance | scripts/agent_team/orchestrator.py:1336-1369 | over such sequences started periods have strictly increasing ends, so an ended one is never entered again |
| Periods.ForwardPeriodsOnlyAdvance | scripts/agent_team/orchestrator.py:1336-1354 | with a clock that goes forwards they also increase when the orchestrator dies between its own two saves |
| Periods.EndedEarlyExactly | scripts/agent_team/orchestrator.py:1509-1517 | a period ended early by another process is entered again exactly when a tick comes before the closing is saved |
| Periods.LeadReentersExactly | scripts/agent_team/cli.py:573-582 | a period that is over and closed is entered again in the rest of its days exactly when the lead starts it |
| Periods.LeadStartIsRepeated | scripts/agent_team/orchestrator.py:1341-1351 | the next tick starts the lead's period once more exactly when it is not closed and the orchestrator remembers none |
| EventStream.HandleFrame | frontend/src/api.ts:426-442 | one frame's event and data lines dispatch progress, plan or failure |
| EventStream.Drain | frontend/src/api.ts:444-456 | the inner loop dispatches every complete frame and keeps the tail |
| EventStream.Receive | frontend/src/api.ts:444-463 | what is reported and the outcome depend only on the text the chunks spell, wherever they are cut |
| EventStream.FramesInPieces | frontend/src/api.ts:444-456 | the frames of a text are those of its first part, then those of the kept tail with the rest |
| EventStream.FramesSpellText | frontend/src/api.ts:444-456 | frames, separators and tail spell the text; nothing is lost but the tail |
| EventStream.FramesAreWhole | frontend/src/api.ts:444-456 | no frame and no tail contains a separator |
| AuthoritativeMerge.MergeAuthoritativeRequirements | backend/app/architect/authoritative_merge.py:141-186 | the loop over constraints computes the merge |
| AuthoritativeMerge.MergeEnforcesRequirements | backend/app/architect/authoritative_merge.py:55-186 | each required type has exactly its count, vouched for by the user, and unknown or zero types leave no trace |
| AuthoritativeMerge.MergeIsIdempotent | backend/app/architect/authoritative_merge.py:141-186 | merging twice is merging once |
| AuthoritativeMerge.MergeKeepsOtherItems | backend/app/architect/authoritative_merge.py:117-186 | the items of all other types stay as they were, in order and number |
| AuthoritativeMerge.MergeKeepsSpecValid | backend/app/architect/models.py:357-390 | a valid specification stays valid unless its entry room is stripped |
| AuthoritativeMerge.StrippedEntryIsInvalid | backend/app/architect/models.py:357-390 | stripping the entry room makes it invalid |
| AuthoritativeMerge.ComputeAreaBudget | backend/app/architect/area_budget.py:42-78 | the loop reserves area for known required types outside the model's vocabulary; refused exactly when nothing is left |
| AuthoritativeMerge.MergedProgramFitsTotal | backend/app/architect/area_budget.py:42-78 | a model program that fits what was left and agrees on its counts fits the total after the merge |
| RowLayout.LayOut | backend/app/design/generator.py:41-60 | the loop that advances x lays the rooms out side by side |
| RowLayout.GenerateDesign | backend/app/design/generator.py:63-129 | unparsed projects, numbers it cannot compute with and too small footprints are refused exactly so; otherwise the whole house, with its notes |
| RowLayout.EveryFloorIsTiled | backend/app/design/generator.py:63-129 | every floor with rooms is one gap-free row filling the square exactly, but for a single storey with negative bedrooms and area to share, exactly |
| RowLayout.TiledRoomsAreDisjoint | backend/app/design/generator.py:41-60 | no two rooms of such a row overlap |
| RowLayout.BedroomsAsRequested | backend/app/design/generator.py:98-122 | bedrooms over all floors equal the requested number, none for a negative one |
| RowLayout.UpperFloorsAreEven | backend/app/design/generator.py:113-122 | upper floors differ by at most one bedroom, the lower never having fewer |

## Left out

- MergeSafety.EveryRunIsSafe: one Issue at a time, on values rather than objects; one orchestrator process, as its singleton lock ensures; its kind never changes; integration branches of other Issues appear as the steps that finish their rollups.
- MergeSafety.OwnerMergesAreSafe: GitHub's own guard on the merged head SHA is assumed.
- OwnerBase.OwnerMergesBaseExactly: a commit's history is a given set, and a fetch brings all branches or none.
- AttemptBudget.AttemptsStayBounded: locks, paused schedulers and resource limits only delay the steps and are not part of the machine.
- MergeAudit.OwnerMergesAreAuditedExactly: an exception between the two transactions is a death of the process.
- Reconciliation.ReconcileRecovers: one pass without a concurrent writer; a WORKING Issue with a live process and a fresh heartbeat is left as it is.
- Scheduler.ClaimsNeverConflict: no concurrent writer between planning and claiming, as the source's plan assumes.
- StateStore.Store.TryAcquireLocks: the rows one requirement meets come in the table's own order, which SQL leaves open; here they are a set per requirement.
- ContractRoundTrip.RoundTripExactly: digits and case folding are those of ASCII; problem texts are not modelled, only whether there are any; the Authorization section is judged by a given function.
- TaggedRules.TagsAreInclusion: how numbers are printed and read is given, with the three laws of `Lawful`, which some notation obeys (`TaggedRules.FractionsAreLawful`); a report's numbers are reals, infinities and NaN left out.
- Scheduler.PlanWithinCapacity: the snapshot is an input, as it is an argument of the source's `plan`; CPU and memory are readings of the machine.
- Periods.StartedPeriodsOnlyAdvance: runs in which no other process starts a period, since such a start does repeat a period.
- AuthoritativeMerge.MergeEnforcesRequirements: constraints name distinct room types; an item's further bounds are opaque.
- RowLayout.EveryFloorIsTiled: exact reals instead of floating point; the square root of the floor area is an input.
- Git, worktrees, subprocesses, Telegram, HTTP, prompts, reports, failure classifiers and redaction: input and output.
- The store's contract text, outbox, heavy-job pool, remote-control tables, `domain_locks` column and migrations.
- SQLite itself: transactions are atomic and serialised.
- The analysis lane, usage probes, labels, milestones and the CI re-run bookkeeping.
- `refresh_contract` as an effect on agent processes: exclusion is stated over the lock table.
- The Hebrew calendar, date formatting and time zones: given functions on day numbers.
- UTF-8 decoding and JSON parsing in the browser: text and opaque payloads.
- The solver, geometry core, concept generator, validators, React components and FastAPI routers.
