/** A rollup Issue is validated through its pull request only and is never a worker's task: who keeps to that. */
module RollupRuns {
  import opened Prelude
  import opened Lifecycle
  import opened StateStore
  import opened MergePolicy
  import opened MergeProtocol
  import opened ProtocolRuns
  import opened StepFrames

  predicate AtWork(s: State) {
    s.CLAIMED? || s.WORKING? || s.FIX_REQUIRED?
  }

  ghost predicate Idling(row: IssueRow) {
    row.kind == Rollup && !AtWork(row.state) && row.attempt == 0
  }

  /** No worker runs on the rollup, none is about to, and nobody remembers anything else. */
  ghost predicate Rested(w: World) {
    && Idling(w.row) && w.worker.NoWorker? && (w.leadSeen.Some? ==> w.leadSeen.value == 0)
    && (w.tick.Took? || w.tick.SawPr? ==> Idling(w.tick.row)) && !w.tick.Claiming?
    && (w.reviewer.Read? || w.reviewer.Wrote? ==> Idling(w.reviewer.row))
  }

  /** The three steps that send any Issue to a fixer without asking whether it is a rollup. */
  predicate SendsFixer(a: Action) {
    (a.ByTick? && a.tick.DispatchFixer?) || (a.ByLead? && (a.lead.OrderRepair? || a.lead.SmokeReverted?))
  }

  lemma MoveRests(w: World, to: State, validated: Option<Sha>)
    requires Rested(w) && !AtWork(to)
    ensures Rested(Try(w, to)) && Rested(TryWith(w, to, validated))
  {
    hide Allowed;
  }

  lemma ClaimRests(rules: Rules, w: World, s: TickStep)
    requires Rested(w)
    ensures Rested(NextClaim(rules, w, s))
  {
    hide Try, Dispatch, AttemptsLeft;
  }

  lemma AdvanceRests(rules: Rules, w: World, s: TickStep)
    requires Rested(w) && !s.DispatchFixer?
    ensures Rested(NextAdvance(rules, w, s))
  {
    hide Try, TryWith, Dispatch, AttemptsLeft;
    var idle := w.(tick := Idle);
    match s
    case EnterCi => MoveRests(idle, CI, None);
    case EnterReview => MoveRests(idle, REVIEW, None);
    case HeadMoved => MoveRests(idle, CI, None);
    case InvalidateReadiness => MoveRests(idle, CI, None);
    case _ =>
  }

  lemma PassedRests(rules: Rules, w: World, s: TickStep)
    requires Rested(w)
    ensures Rested(NextPassed(rules, w, s))
  {
    hide Try, TryWith, PassesReview, JoinedBranch;
    var idle := w.(tick := Idle);
    match s
    case BecomeReady(_, _) => MoveRests(idle, READY_FOR_OWNER, None);
    case MergeIntoBranch(_) => MoveRests(idle, BLOCKED, None);
    case RecordIntegration =>
      if w.tick.MergedIntoBranch? { MoveRests(idle.(smoking := true), INTEGRATED, Some(w.tick.mergeSha)); }
    case _ =>
  }

  lemma FoundRests(rules: Rules, w: World, s: TickStep)
    requires Rested(w)
    ensures Rested(NextFound(rules, w, s))
  {
    hide Try, TryWith, ContextsGreen, ProtectedContexts;
    var idle := w.(tick := Idle);
    if s.RecordFoundMerge? && w.tick.Audited? {
      MoveRests(idle, BLOCKED, None);
      MoveRests(idle.(smoking := true), INTEGRATED, w.tick.found);
      MoveRests(idle.(entries := w.entries + [FoundMerged(w.tick.audit)]), MERGED, w.tick.found);
    }
  }

  lemma TickRests(rules: Rules, w: World, s: TickStep)
    requires Rested(w) && !s.DispatchFixer?
    ensures Rested(NextTick(rules, w, s))
  {
    hide NextClaim, NextAdvance, NextUpdate, NextPassed, NextFound, Try;
    MoveRests(w.(tick := Idle), BLOCKED, None);
    ClaimRests(rules, w, s);
    AdvanceRests(rules, w, s);
    PassedRests(rules, w, s);
    FoundRests(rules, w, s);
    UpdateTouches(rules, w, s);
  }

  lemma ReviewerRests(rules: Rules, w: World, s: ReviewStep)
    requires Rested(w)
    ensures Rested(NextReviewer(rules, w, s))
  {
    hide Try, Dispatch, AttemptsLeft;
    MoveRests(w.(reviewer := NoReviewer), BLOCKED, None);
  }

  lemma CallRests(rules: Rules, w: World, id: int, s: CallStep)
    requires Rested(w)
    ensures Rested(NextCall(rules, w, id, s))
  {
    hide Approved, StartsWith, TryWith;
    if s.CallHead? {
      MoveRests(Drop(w, id), CI, None);
    } else if s.CallRecord? && id in w.calls && w.calls[id].MergedOnGitHub? {
      MoveRests(w.(calls := w.calls[id := Recorded(|w.entries|)], entries := w.entries + [ByOwner(w.calls[id].merge)]),
          MERGED, Some(w.calls[id].mergeSha));
    }
  }

  lemma OrderRests(w: World, s: LeadStep)
    requires Rested(w) && !s.OrderRepair? && !s.SmokeReverted?
    ensures Rested(NextOrder(w, s))
  {
    hide Try, TryWith;
    match s
    case BlockIssue => MoveRests(w, BLOCKED, None);
    case Finish => MoveRests(w, DONE, None);
    case ChangeRequest => if w.asked > 0 { MoveRests(w.(asked := w.asked - 1), BLOCKED, None); }
    case Resume => MoveRests(w, PR_OPEN, None);
    case AdoptIntegration(sha) => MoveRests(w.(smoking := true), INTEGRATED, Some(sha));
    case _ =>
  }

  lemma OthersRest(rules: Rules, w: World, s: LeadStep, e: EnvStep, t: WorkerStep)
    requires Rested(w)
    ensures Rested(NextBranches(rules, w, s)) && Rested(NextEnv(w, e)) && Rested(NextWorker(rules, w, t))
  {
    hide NextWorker, StartsWith;
    NoWorkerRests(rules, w, t);
  }

  lemma NoWorkerRests(rules: Rules, w: World, t: WorkerStep)
    requires w.worker.NoWorker?
    ensures NextWorker(rules, w, t) == w
  {
    hide Try, TryWith, Dispatch, AttemptsLeft;
  }

  lemma StepRests(rules: Rules, w: World, a: Action)
    requires Rested(w) && !SendsFixer(a)
    ensures Rested(Next(rules, w, a))
  {
    hide NextTick, NextWorker, NextReviewer, NextCall, NextOrder, NextBranches, NextEnv, OnBranches, Rested;
    match a
    case ByTick(s) => TickRests(rules, w, s);
    case ByWorker(s) => OthersRest(rules, w, Finish, RemoteCrash, s);
    case ByReviewer(s) => ReviewerRests(rules, w, s);
    case ByCall(id, s) => CallRests(rules, w, id, s);
    case ByLead(s) =>
      OrderRests(w, s);
      OthersRest(rules, w, s, RemoteCrash, ReadForRun);
    case ByEnv(s) => OthersRest(rules, w, Finish, s, ReadForRun);
  }

  lemma {:induction false} RestedRuns(rules: Rules, w: World, actions: seq<Action>)
    requires Rested(w) && forall a :: a in actions ==> !SendsFixer(a)
    ensures Rested(RunOf(rules, w, actions))
    decreases actions
  {
    hide Rested, Next;
    if actions != [] {
      StepRests(rules, w, actions[0]);
      RestedRuns(rules, Next(rules, w, actions[0]), actions[1..]);
    }
  }

  /** Over any run a rollup is never claimed, runs no worker and uses no attempt, unless red CI or a merge conflict, a
      lead's repair order or a smoke revert sends it to a fixer. */
  lemma RollupsRunNoWorker(rules: Rules, start: World, actions: seq<Action>)
    requires Initial(start) && start.row.kind == Rollup && forall a :: a in actions ==> !SendsFixer(a)
    ensures var w := RunOf(rules, start, actions);
            w.worker.NoWorker? && w.row.attempt == 0 && !AtWork(w.row.state)
  {
    hide Next;
    RestedRuns(rules, start, actions);
  }

  const RED_CI: seq<Action> :=
      [ByTick(TakeUp), ByTick(EnterCi), ByTick(TakeUp), ByTick(ReadPr), ByTick(DispatchFixer(false))]
  const FIXER_STARTS: seq<Action> :=
      [ByTick(TakeUp), ByTick(SpawnFixer), ByWorker(ReadForRun), ByWorker(StartRun), ByWorker(EndRun)]

  /** The exceptions are real: with any repair budget, red CI puts a worker on a rollup. */
  lemma RedCiPutsAWorkerOnARollup(rules: Rules, start: World)
    requires Initial(start) && start.row.kind == Rollup && rules.policy.maxRepairs >= 1
    ensures var w := RunOf(rules, start, RED_CI + FIXER_STARTS);
            w.row.kind == Rollup && w.row.state == WORKING && w.row.attempt == 1 && w.worker.Completing?
  {
    RedCiRuns(rules, start);
    FixerStartsRuns(rules, RunOf(rules, start, RED_CI));
    RunConcat(rules, start, RED_CI, FIXER_STARTS);
  }

  lemma RedCiRuns(rules: Rules, w: World)
    requires w.row.state == PR_OPEN && w.tick.Idle? && AttemptsLeft(rules, w.row)
    ensures RunOf(rules, w, RED_CI) == w.(row := w.row.(state := FIX_REQUIRED))
  {
    hide Next;
    Run5(rules, w, ByTick(TakeUp), ByTick(EnterCi), ByTick(TakeUp), ByTick(ReadPr), ByTick(DispatchFixer(false)));
    TakeUpStep(rules, w);
    AdvanceStep(rules, w.(tick := Took(w.row)), EnterCi);
    var w2 := w.(row := w.row.(state := CI));
    TakeUpStep(rules, w2);
    ReadPrStep(rules, w2.(tick := Took(w2.row)));
    AdvanceStep(rules, w2.(tick := SawPr(w2.row, w.gh)), DispatchFixer(false));
  }

  lemma FixerStartsRuns(rules: Rules, w: World)
    requires w.row.state == FIX_REQUIRED && w.tick.Idle? && w.worker.NoWorker?
    ensures var row := w.row.(state := WORKING, attempt := w.row.attempt + 1);
            RunOf(rules, w, FIXER_STARTS) == w.(row := row, worker := Completing(row))
  {
    hide Next;
    Run5(rules, w, ByTick(TakeUp), ByTick(SpawnFixer), ByWorker(ReadForRun), ByWorker(StartRun), ByWorker(EndRun));
    TakeUpStep(rules, w);
    ClaimStep(rules, w.(tick := Took(w.row)), SpawnFixer);
    WorkerRuns(rules, w.(worker := Spawned(true)));
  }
}
