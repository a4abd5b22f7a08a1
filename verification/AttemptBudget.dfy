/** How often an Issue is worked on: the repair budget, what it bounds in every run, and what it does not. */
module AttemptBudget {
  import opened Prelude
  import opened Lifecycle
  import opened StateStore
  import opened MergePolicy
  import opened MergeProtocol
  import opened ProtocolRuns
  import opened StepFrames

  /** A further run is about to start. */
  predicate Pending(s: State) {
    s.QUEUED? || s.CLAIMED? || s.FIX_REQUIRED?
  }

  /** The first run, the repair budget, the runs people ordered, and the dispatches that came late. */
  function Bound(rules: Rules, w: World): nat {
    1 + rules.policy.maxRepairs + w.credits + w.late
  }

  ghost predicate RowWithin(bound: nat, row: IssueRow) {
    row.attempt + (if Pending(row.state) then 1 else 0) <= bound
  }

  /** What the threads and commands still remember leaves room for the run they may start. */
  ghost predicate WorkerWithin(bound: nat, w: World) {
    match w.worker
    case Starting(_, seen) => seen <= bound && (seen < bound || seen == w.row.attempt)
    case Completing(row) => row.attempt <= bound
    case GivenBack => w.row.attempt < bound
    case _ => true
  }

  ghost predicate TickWithin(bound: nat, w: World) {
    match w.tick
    case Claiming(seen) => seen < bound
    case Took(row) => row.state == CLAIMED ==> row.attempt < bound
    case _ => true
  }

  ghost predicate Budgeted(rules: Rules, w: World) {
    var bound := Bound(rules, w);
    RowWithin(bound, w.row) && WorkerWithin(bound, w) && TickWithin(bound, w)
        && (w.leadSeen.Some? ==> w.leadSeen.value <= bound)
  }

  /** A dispatch decided on a row with room for one more run keeps the budget: either the count has not grown since,
      or the dispatch is counted as late. */
  lemma DispatchKeeps(rules: Rules, w: World, seen: nat, to: State, validated: Option<Sha>)
    requires Budgeted(rules, w) && seen < Bound(rules, w)
    ensures Budgeted(rules, Dispatch(w, seen, to, validated))
  {
    hide Allowed;
  }

  lemma MoveKeeps(rules: Rules, w: World, to: State, validated: Option<Sha>)
    requires Budgeted(rules, w)
    ensures Pending(to) ==> w.row.attempt < Bound(rules, w) ==> Budgeted(rules, Try(w, to))
    ensures !Pending(to) ==> Budgeted(rules, Try(w, to)) && Budgeted(rules, TryWith(w, to, validated))
    ensures Budgeted(rules, Ordered(w, to, validated))
  {
    hide Allowed;
  }

  lemma TickClaimKeeps(rules: Rules, w: World, s: TickStep)
    requires Budgeted(rules, w)
    ensures Budgeted(rules, NextClaim(rules, w, s))
  {
    hide Allowed, Dispatch, Try;
    var idle := w.(tick := Idle);
    match s
    case Unclaim => if w.tick.Claiming? { DispatchKeeps(rules, idle, w.tick.seen, QUEUED, w.row.validated); }
    case AdoptPr => MoveKeeps(rules, idle, PR_OPEN, None);
    case RequeueUnclaimed =>
      if w.tick.Took? && w.tick.row.state == CLAIMED {
        DispatchKeeps(rules, idle, w.tick.row.attempt, QUEUED, w.row.validated);
      }
    case RequeueLost =>
      MoveKeeps(rules, idle, BLOCKED, None);
      if w.tick.Took? && AttemptsLeft(rules, w.tick.row) {
        DispatchKeeps(rules, idle, w.tick.row.attempt, QUEUED, w.row.validated);
      }
    case _ =>
  }

  lemma TickAdvanceKeeps(rules: Rules, w: World, s: TickStep)
    requires Budgeted(rules, w)
    ensures Budgeted(rules, NextAdvance(rules, w, s))
  {
    hide Allowed, Dispatch, Try, TryWith;
    var idle := w.(tick := Idle);
    match s
    case EnterCi => MoveKeeps(rules, idle, CI, None);
    case EnterReview => MoveKeeps(rules, idle, REVIEW, None);
    case HeadMoved => MoveKeeps(rules, idle, CI, None);
    case InvalidateReadiness => MoveKeeps(rules, idle, CI, None);
    case DispatchFixer(clear) =>
      if w.tick.SawPr? && AttemptsLeft(rules, w.tick.row) {
        DispatchKeeps(rules, idle, w.tick.row.attempt, FIX_REQUIRED, if clear then None else w.row.validated);
      }
    case DispatchParked =>
      if w.tick.SawPr? && AttemptsLeft(rules, w.tick.row) {
        DispatchKeeps(rules, idle, w.tick.row.attempt, FIX_REQUIRED, w.row.validated);
      }
    case _ =>
  }

  // Most steps have nothing to do with attempts.

  ghost predicate Free(w: World, after: World) {
    && after.row.attempt == w.row.attempt && after.worker == w.worker && after.leadSeen == w.leadSeen
    && after.credits == w.credits && after.late == w.late
    && (after.tick == w.tick || !(after.tick.Claiming? || after.tick.Took?))
    && (Pending(after.row.state) ==> after.row.state == w.row.state)
  }

  lemma FreeKeeps(rules: Rules, w: World, after: World)
    requires Budgeted(rules, w) && Free(w, after)
    ensures Budgeted(rules, after)
  {
  }

  lemma MoveIsFree(w: World, mid: World, to: State, validated: Option<Sha>)
    requires Free(w, mid) && !Pending(to)
    ensures Free(w, Try(mid, to)) && Free(w, TryWith(mid, to, validated))
  {
    hide Allowed;
  }

  lemma PassedIsFree(rules: Rules, w: World, s: TickStep)
    ensures Free(w, NextPassed(rules, w, s))
  {
    hide Allowed, Try, TryWith, PassesReview, JoinedBranch;
    var idle := w.(tick := Idle);
    match s
    case BecomeReady(_, _) => MoveIsFree(w, idle, READY_FOR_OWNER, None);
    case MergeIntoBranch(_) => MoveIsFree(w, idle, BLOCKED, None);
    case RecordIntegration =>
      if w.tick.MergedIntoBranch? { MoveIsFree(w, idle.(smoking := true), INTEGRATED, Some(w.tick.mergeSha)); }
    case _ =>
  }

  lemma FoundIsFree(rules: Rules, w: World, s: TickStep)
    ensures Free(w, NextFound(rules, w, s))
  {
    hide Allowed, Try, TryWith, ContextsGreen, ProtectedContexts;
    var idle := w.(tick := Idle);
    if s.RecordFoundMerge? && w.tick.Audited? {
      MoveIsFree(w, idle, BLOCKED, None);
      MoveIsFree(w, idle.(smoking := true), INTEGRATED, w.tick.found);
      MoveIsFree(w, idle.(entries := w.entries + [FoundMerged(w.tick.audit)]), MERGED, w.tick.found);
    }
  }

  lemma UpdateIsFree(rules: Rules, w: World, s: TickStep)
    ensures Free(w, NextUpdate(rules, w, s))
  {
    hide NextUpdate;
    UpdateTouches(rules, w, s);
  }

  lemma EarlyCallIsFree(rules: Rules, w: World, id: int, s: CallStep)
    requires s.CallBegin? || s.CallHead? || s.CallRefresh? || s.CallDecide? || s.CallFetch? || s.CallBase?
    ensures Free(w, NextCall(rules, w, id, s))
  {
    hide Allowed, Approved, StartsWith, TryWith;
    MoveIsFree(w, Drop(w, id), CI, None);
  }

  lemma LateCallIsFree(rules: Rules, w: World, id: int, s: CallStep)
    requires s.CallMerge? || s.CallRecord? || s.CallAudit? || s.CallRefuse?
    ensures Free(w, NextCall(rules, w, id, s))
  {
    hide Allowed, Approved, StartsWith, TryWith;
    if s.CallRecord? && id in w.calls && w.calls[id].MergedOnGitHub? {
      MoveIsFree(w,
          w.(calls := w.calls[id := Recorded(|w.entries|)], entries := w.entries + [ByOwner(w.calls[id].merge)]),
          MERGED, Some(w.calls[id].mergeSha));
    }
  }

  lemma CallIsFree(rules: Rules, w: World, id: int, s: CallStep)
    ensures Free(w, NextCall(rules, w, id, s))
  {
    hide NextCall;
    if s.CallMerge? || s.CallRecord? || s.CallAudit? || s.CallRefuse? {
      LateCallIsFree(rules, w, id, s);
    } else {
      EarlyCallIsFree(rules, w, id, s);
    }
  }

  lemma BranchesAreFree(rules: Rules, w: World, s: LeadStep)
    ensures Free(w, NextBranches(rules, w, s))
  {
    hide StartsWith;
  }

  lemma LookKeepsBudget(rules: Rules, w: World, s: TickStep)
    requires Budgeted(rules, w) && (s.TakeUp? || s.ReadPr? || s.LetGo? || s.BlockIt?)
    ensures Budgeted(rules, NextTick(rules, w, s))
  {
    hide NextClaim, NextAdvance, NextUpdate, NextPassed, NextFound, Try;
    MoveKeeps(rules, w.(tick := Idle), BLOCKED, None);
  }

  lemma TickKeepsBudget(rules: Rules, w: World, s: TickStep)
    requires Budgeted(rules, w)
    ensures Budgeted(rules, NextTick(rules, w, s))
  {
    hide NextClaim, NextAdvance, NextUpdate, NextPassed, NextFound, Budgeted, Free, Try;
    if s.TakeUp? || s.ReadPr? || s.LetGo? || s.BlockIt? {
      LookKeepsBudget(rules, w, s);
    } else {
      TickClaimKeeps(rules, w, s);
      TickAdvanceKeeps(rules, w, s);
      PassedIsFree(rules, w, s);
      FreeKeeps(rules, w, NextPassed(rules, w, s));
      FoundIsFree(rules, w, s);
      FreeKeeps(rules, w, NextFound(rules, w, s));
      UpdateIsFree(rules, w, s);
      FreeKeeps(rules, w, NextUpdate(rules, w, s));
    }
  }

  lemma WorkerKeepsBudget(rules: Rules, w: World, s: WorkerStep)
    requires Budgeted(rules, w)
    ensures Budgeted(rules, NextWorker(rules, w, s))
  {
    hide Allowed, Dispatch, Try, TryWith;
    var gone := w.(worker := NoWorker);
    MoveKeeps(rules, gone, BLOCKED, None);
    match s
    case RequeueRateLimited => MoveKeeps(rules, gone, QUEUED, None);
    case FinishRun => MoveKeeps(rules, gone, PR_OPEN, None);
    case SettleFailed =>
      if w.worker.Failing? && AttemptsLeft(rules, w.worker.row) {
        DispatchKeeps(rules, gone, w.worker.row.attempt, QUEUED, w.row.validated);
      }
    case _ =>
  }

  lemma ReviewerKeepsBudget(rules: Rules, w: World, s: ReviewStep)
    requires Budgeted(rules, w)
    ensures Budgeted(rules, NextReviewer(rules, w, s))
  {
    hide Allowed, Dispatch, Try;
    var gone := w.(reviewer := NoReviewer);
    MoveKeeps(rules, gone, BLOCKED, None);
    if w.reviewer.Wrote? && AttemptsLeft(rules, w.reviewer.row) {
      DispatchKeeps(rules, gone, w.reviewer.row.attempt, FIX_REQUIRED, w.row.validated);
    }
  }

  predicate AboutRuns(s: LeadStep) {
    s.ChangeRequest? || s.ReadForRequeue? || s.Requeue? || s.OrderRepair? || s.SmokeReverted?
  }

  lemma OrderIsFree(w: World, s: LeadStep)
    requires !AboutRuns(s)
    ensures Free(w, NextOrder(w, s))
  {
    hide Allowed, Ordered, Try, TryWith;
    match s
    case BlockIssue => MoveIsFree(w, w, BLOCKED, None);
    case Finish => MoveIsFree(w, w, DONE, None);
    case Resume => MoveIsFree(w, w, PR_OPEN, None);
    case AdoptIntegration(sha) => MoveIsFree(w, w.(smoking := true), INTEGRATED, Some(sha));
    case _ =>
  }

  lemma RequeueKeepsBudget(rules: Rules, w: World, s: LeadStep)
    requires Budgeted(rules, w) && (s.Requeue? || s.ReadForRequeue?)
    ensures Budgeted(rules, NextOrder(w, s))
  {
    hide Allowed, Ordered, Try, TryWith;
  }

  lemma RunOrderKeepsBudget(rules: Rules, w: World, s: LeadStep)
    requires Budgeted(rules, w) && AboutRuns(s)
    ensures Budgeted(rules, NextOrder(w, s))
  {
    hide Allowed, Ordered, Try, TryWith, Budgeted;
    match s
    case ChangeRequest =>
      if w.asked > 0 {
        var heard := w.(asked := w.asked - 1);
        FreeKeeps(rules, w, heard);
        MoveKeeps(rules, heard, BLOCKED, None);
        MoveKeeps(rules, heard, FIX_REQUIRED, w.row.validated);
      }
    case OrderRepair => MoveKeeps(rules, w, FIX_REQUIRED, w.row.validated);
    case SmokeReverted =>
      FreeKeeps(rules, w, w.(smoking := false));
      MoveKeeps(rules, w.(smoking := false), FIX_REQUIRED, None);
    case _ => RequeueKeepsBudget(rules, w, s);
  }

  lemma OrderKeepsBudget(rules: Rules, w: World, s: LeadStep)
    requires Budgeted(rules, w)
    ensures Budgeted(rules, NextOrder(w, s))
  {
    hide NextOrder, Budgeted, Free;
    if AboutRuns(s) {
      RunOrderKeepsBudget(rules, w, s);
    } else {
      OrderIsFree(w, s);
      FreeKeeps(rules, w, NextOrder(w, s));
    }
  }

  lemma OutsideKeepsBudget(rules: Rules, w: World, s: EnvStep)
    requires Budgeted(rules, w)
    ensures Budgeted(rules, NextEnv(w, s))
  {
  }

  lemma StepKeepsBudget(rules: Rules, w: World, a: Action)
    requires Budgeted(rules, w)
    ensures Budgeted(rules, Next(rules, w, a))
  {
    hide NextTick, NextWorker, NextReviewer, NextCall, NextOrder, NextBranches, NextEnv, OnBranches, Budgeted;
    match a
    case ByTick(s) => TickKeepsBudget(rules, w, s);
    case ByWorker(s) => WorkerKeepsBudget(rules, w, s);
    case ByReviewer(s) => ReviewerKeepsBudget(rules, w, s);
    case ByCall(id, s) =>
      CallIsFree(rules, w, id, s);
      FreeKeeps(rules, w, NextCall(rules, w, id, s));
    case ByLead(s) =>
      OrderKeepsBudget(rules, w, s);
      BranchesAreFree(rules, w, s);
      FreeKeeps(rules, w, NextBranches(rules, w, s));
    case ByEnv(s) => OutsideKeepsBudget(rules, w, s);
  }

  lemma {:induction false} EveryRunIsBudgeted(rules: Rules, w: World, actions: seq<Action>)
    requires Budgeted(rules, w)
    ensures Budgeted(rules, RunOf(rules, w, actions))
    decreases actions
  {
    hide Budgeted, Next;
    if actions != [] {
      StepKeepsBudget(rules, w, actions[0]);
      EveryRunIsBudgeted(rules, Next(rules, w, actions[0]), actions[1..]);
    }
  }

  /** Automatic work is bounded: in every run the attempt count never exceeds the first run, the repair budget, the
      runs people ordered and the late dispatches, and while a further run is pending it is strictly below that. A
      dispatch is late if the attempt count has grown since the row it was decided on was read; without late ones
      the budget is kept as promised. */
  lemma AttemptsStayBounded(rules: Rules, start: World, actions: seq<Action>)
    requires Initial(start)
    ensures var w := RunOf(rules, start, actions);
            && w.row.attempt <= 1 + rules.policy.maxRepairs + w.credits + w.late
            && (Pending(w.row.state) ==> w.row.attempt <= rules.policy.maxRepairs + w.credits + w.late)
  {
    EveryRunIsBudgeted(rules, start, actions);
  }

  // --- a run that exceeds the budget --------------------------------------------------------------

  const FAIL: seq<Action> := [ByWorker(RereadFailed), ByWorker(SettleFailed)]
  const PARKED_TO_FIXER: seq<Action> :=
      [ByTick(TakeUp), ByTick(ReadPr), ByTick(DispatchParked), ByTick(TakeUp), ByTick(SpawnFixer)]
  const FIXER_FAILS: seq<Action> :=
      [ByWorker(ReadForRun), ByWorker(StartRun), ByWorker(EndRun), ByWorker(RereadFailed), ByWorker(SettleFailed)]
  const REVIEWER_WAKES: seq<Action> :=
      [ByReviewer(Settle), ByTick(TakeUp), ByTick(SpawnFixer), ByWorker(ReadForRun), ByWorker(StartRun)]

  function Failures(n: nat): seq<Action> {
    if n == 0 then [] else CLAIM_AND_RUN + FAIL + Failures(n - 1)
  }

  /** Runs fail until one repair is left; the pull request is reviewed; the reviewer stores its objection and stalls;
      the tick finds that verdict and spends the last repair, which fails; then the reviewer goes on with the row it
      had read. */
  function LateDispatch(n: nat, ev: CiEvidence): seq<Action> {
    Failures(n) + CLAIM_AND_RUN + [ByWorker(FinishRun)] + ToReview(ev) + ToVerdict(REQUEST_CHANGES) + PARKED_TO_FIXER
        + FIXER_FAILS + REVIEWER_WAKES
  }

  lemma FailRuns(rules: Rules, w: World)
    requires w.worker.Completing? && w.row.state == WORKING && w.row.kind != Rollup
    ensures RunOf(rules, w, FAIL) ==
        w.(worker := NoWorker, row := w.row.(state := if AttemptsLeft(rules, w.row) then QUEUED else BLOCKED))
  {
    assert FAIL == [ByWorker(RereadFailed)] + [ByWorker(SettleFailed)];
    assert [] + [ByWorker(RereadFailed)] == [ByWorker(RereadFailed)];
    RunSnoc(rules, w, [ByWorker(RereadFailed)], ByWorker(SettleFailed));
    RunSnoc(rules, w, [], ByWorker(RereadFailed));
  }

  lemma {:induction false} FailuresRun(rules: Rules, w: World, n: nat)
    requires Waiting(w) && w.row.attempt + n <= rules.policy.maxRepairs
    ensures RunOf(rules, w, Failures(n)) == w.(row := w.row.(attempt := w.row.attempt + n))
    decreases n
  {
    hide Next;
    if n > 0 {
      ClaimAndRunRuns(rules, w);
      var running := RunOf(rules, w, CLAIM_AND_RUN);
      FailRuns(rules, running);
      RunConcat(rules, w, CLAIM_AND_RUN, FAIL);
      RunConcat(rules, w, CLAIM_AND_RUN + FAIL, Failures(n - 1));
      FailuresRun(rules, RunOf(rules, running, FAIL), n - 1);
    }
  }

  lemma ParkedToFixerRuns(rules: Rules, w: World)
    requires w.row.state == REVIEW && w.row.kind != Rollup && AttemptsLeft(rules, w.row) && w.tick.Idle?
    requires w.worker.NoWorker?
    requires w.row.verdict == Some(Verdict(REQUEST_CHANGES, Some(w.gh.head)))
    ensures RunOf(rules, w, PARKED_TO_FIXER) == w.(row := w.row.(state := FIX_REQUIRED), worker := Spawned(true))
  {
    hide NextPassed, NextFound;
    Run5(rules, w, ByTick(TakeUp), ByTick(ReadPr), ByTick(DispatchParked), ByTick(TakeUp), ByTick(SpawnFixer));
  }

  lemma FixerFailsRuns(rules: Rules, w: World)
    requires w.row.state == FIX_REQUIRED && w.worker == Spawned(true) && w.row.attempt == rules.policy.maxRepairs >= 1
    ensures RunOf(rules, w, FIXER_FAILS) ==
        w.(row := w.row.(state := BLOCKED, attempt := w.row.attempt + 1), worker := NoWorker)
  {
    hide Next;
    Run5(rules, w, ByWorker(ReadForRun), ByWorker(StartRun), ByWorker(EndRun), ByWorker(RereadFailed),
        ByWorker(SettleFailed));
    WorkerRuns(rules, w);
    var row := w.row.(state := WORKING, attempt := w.row.attempt + 1);
    WorkerStepRuns(rules, w.(row := row, worker := Completing(row)), RereadFailed);
    WorkerStepRuns(rules, w.(row := row, worker := Failing(row)), SettleFailed);
  }

  lemma ReviewerWakesRuns(rules: Rules, w: World)
    requires w.row.state == BLOCKED && w.worker.NoWorker? && w.tick.Idle? && w.reviewer.Wrote?
    requires w.reviewer.kind == REQUEST_CHANGES
    requires AttemptsLeft(rules, w.reviewer.row) && w.reviewer.row.kind != Rollup
    requires w.row.attempt > w.reviewer.row.attempt
    ensures RunOf(rules, w, REVIEWER_WAKES) ==
            w.(row := w.row.(state := WORKING, attempt := w.row.attempt + 1), worker := Running, reviewer := NoReviewer,
                late := w.late + 1)
  {
    hide NextPassed, NextAdvance, NextUpdate, NextFound;
    Run5(rules, w, ByReviewer(Settle), ByTick(TakeUp), ByTick(SpawnFixer), ByWorker(ReadForRun), ByWorker(StartRun));
  }

  /** Late dispatches do happen, and the bound with them is tight: with any budget of at least one repair, every
      waiting ROOT or child has a run, with nobody ordering anything, that starts one run more than the budget
      allows. */
  lemma LateDispatchExceedsTheBudget(rules: Rules, start: World, ev: CiEvidence)
    requires Initial(start) && start.row.state == QUEUED && rules.policy.maxRepairs >= 1
    requires ev.head == start.gh.head && ev.status == SUCCESS
    ensures var w := RunOf(rules, start, LateDispatch(rules.policy.maxRepairs - 1, ev));
            w.row.state == WORKING && w.row.attempt == 2 + rules.policy.maxRepairs && w.credits == 0 && w.late == 1
  {
    hide Next, Approved, ToReview, ToVerdict, Failures, CLAIM_AND_RUN, FAIL, PARKED_TO_FIXER, FIXER_FAILS,
         REVIEWER_WAKES;
    var m := rules.policy.maxRepairs;
    var a1 := Failures(m - 1);
    var w1 := RunOf(rules, start, a1);
    FailuresRun(rules, start, m - 1);
    var w2 := RunOf(rules, w1, CLAIM_AND_RUN);
    ClaimAndRunRuns(rules, w1);
    RunConcat(rules, start, a1, CLAIM_AND_RUN);
    var a2 := a1 + CLAIM_AND_RUN;
    var w3 := Next(rules, w2, ByWorker(FinishRun));
    FinishRuns(rules, w2);
    RunSnoc(rules, start, a2, ByWorker(FinishRun));
    var a3 := a2 + [ByWorker(FinishRun)];
    ToReviewRuns(rules, w3, ev);
    RunConcat(rules, start, a3, ToReview(ev));
    var w4 := RunOf(rules, w3, ToReview(ev));
    ToVerdictRuns(rules, w4, REQUEST_CHANGES);
    RunConcat(rules, start, a3 + ToReview(ev), ToVerdict(REQUEST_CHANGES));
    var w5 := RunOf(rules, w4, ToVerdict(REQUEST_CHANGES));
    ParkedToFixerRuns(rules, w5);
    var a5 := a3 + ToReview(ev) + ToVerdict(REQUEST_CHANGES);
    RunConcat(rules, start, a5, PARKED_TO_FIXER);
    var w6 := RunOf(rules, w5, PARKED_TO_FIXER);
    FixerFailsRuns(rules, w6);
    RunConcat(rules, start, a5 + PARKED_TO_FIXER, FIXER_FAILS);
    ReviewerWakesRuns(rules, RunOf(rules, w6, FIXER_FAILS));
    RunConcat(rules, start, a5 + PARKED_TO_FIXER + FIXER_FAILS, REVIEWER_WAKES);
  }

  // --- rate limits --------------------------------------------------------------------------------

  /** Nobody else touches the attempt count, and the orchestrator lives. */
  predicate Quiet(actions: seq<Action>) {
    forall a :: a in actions ==> !a.ByWorker? && !(a.ByLead? && a.lead.Requeue?) && a != ByEnv(OrchestratorCrash)
  }

  lemma QuietTick(rules: Rules, w: World, s: TickStep)
    requires !w.worker.NoWorker?
    ensures var after := NextTick(rules, w, s); after.row.attempt == w.row.attempt && after.worker == w.worker
  {
    hide Allowed, Try, NextClaim, NextAdvance, NextUpdate, NextPassed, NextFound;
    MoveIsFree(w, w.(tick := Idle), BLOCKED, None);
    QuietClaim(rules, w, s);
    QuietAdvance(rules, w, s);
    PassedIsFree(rules, w, s);
    FoundIsFree(rules, w, s);
    UpdateTouches(rules, w, s);
  }

  lemma QuietClaim(rules: Rules, w: World, s: TickStep)
    requires !w.worker.NoWorker?
    ensures var after := NextClaim(rules, w, s); after.row.attempt == w.row.attempt && after.worker == w.worker
  {
    hide Allowed, AttemptsLeft;
  }

  lemma QuietAdvance(rules: Rules, w: World, s: TickStep)
    ensures var after := NextAdvance(rules, w, s); after.row.attempt == w.row.attempt && after.worker == w.worker
  {
    hide Allowed, AttemptsLeft;
  }

  lemma QuietReviewer(rules: Rules, w: World, s: ReviewStep)
    ensures var after := NextReviewer(rules, w, s); after.row.attempt == w.row.attempt && after.worker == w.worker
  {
    hide Allowed, AttemptsLeft;
  }

  lemma QuietStep(rules: Rules, w: World, a: Action)
    requires !a.ByWorker? && !(a.ByLead? && a.lead.Requeue?) && a != ByEnv(OrchestratorCrash) && !w.worker.NoWorker?
    ensures var after := Next(rules, w, a); after.row.attempt == w.row.attempt && after.worker == w.worker
  {
    hide NextTick, NextReviewer, NextCall, NextOrder, NextBranches, OnBranches;
    match a
    case ByTick(s) => QuietTick(rules, w, s);
    case ByReviewer(s) => QuietReviewer(rules, w, s);
    case ByCall(id, s) => CallIsFree(rules, w, id, s);
    case ByLead(s) =>
      BranchesAreFree(rules, w, s);
      QuietOrder(w, s);
    case ByEnv(s) =>
  }

  lemma QuietOrder(w: World, s: LeadStep)
    requires !s.Requeue?
    ensures var after := NextOrder(w, s); after.row.attempt == w.row.attempt && after.worker == w.worker
  {
    hide Allowed;
  }

  lemma {:induction false} QuietRun(rules: Rules, w: World, actions: seq<Action>)
    requires Quiet(actions) && !w.worker.NoWorker?
    ensures var after := RunOf(rules, w, actions); after.row.attempt == w.row.attempt && after.worker == w.worker
    decreases actions
  {
    hide Next;
    if actions != [] {
      QuietStep(rules, w, actions[0]);
      QuietRun(rules, Next(rules, w, actions[0]), actions[1..]);
    }
  }

  lemma QuietThen(rules: Rules, w: World, quiet: seq<Action>, s: WorkerStep)
    requires Quiet(quiet) && !w.worker.NoWorker?
    ensures var before := RunOf(rules, w, quiet);
            && before.row.attempt == w.row.attempt && before.worker == w.worker
            && RunOf(rules, w, quiet + [ByWorker(s)]) == NextWorker(rules, before, s)
  {
    hide NextWorker;
    QuietRun(rules, w, quiet);
    RunSnoc(rules, w, quiet, ByWorker(s));
  }

  /** A run that hits the rate limit costs nothing. From the moment the worker thread reads the row over its start, its
      end and the attempt it gives back up to the requeue, each a transaction of its own with anything in between that
      leaves the attempt count alone, the net change is zero; and the Issue is queued if it is still WORKING. */
  lemma RateLimitedRunIsFree(rules: Rules, w: World, m0: seq<Action>, m1: seq<Action>, m2: seq<Action>, m3: seq<Action>)
    requires w.worker.Starting? && w.worker.seen == w.row.attempt && Quiet(m0) && Quiet(m1) && Quiet(m2) && Quiet(m3)
    ensures var started := RunOf(rules, w, m0 + [ByWorker(StartRun)]);
            started.worker.Running? ==>
            && started.row.attempt == w.row.attempt + 1
            && var ended := RunOf(rules, started, m1 + [ByWorker(EndRun)]);
               ended.worker.Completing? ==>
               var given := RunOf(rules, ended, m2 + [ByWorker(GiveBack)]);
               var after := RunOf(rules, given, m3 + [ByWorker(RequeueRateLimited)]);
               && after.row.attempt == w.row.attempt && after.worker.NoWorker?
               && (RunOf(rules, given, m3).row.state == WORKING ==> after.row.state == QUEUED)
  {
    hide Next;
    QuietThen(rules, w, m0, StartRun);
    var started := RunOf(rules, w, m0 + [ByWorker(StartRun)]);
    if started.worker.Running? {
      QuietThen(rules, started, m1, EndRun);
      var ended := RunOf(rules, started, m1 + [ByWorker(EndRun)]);
      if ended.worker.Completing? {
        QuietThen(rules, ended, m2, GiveBack);
        QuietThen(rules, RunOf(rules, ended, m2 + [ByWorker(GiveBack)]), m3, RequeueRateLimited);
      }
    }
  }
}
