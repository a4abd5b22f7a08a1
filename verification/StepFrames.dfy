/** What each step of the machine may touch: one frame, from which most of what its invariants need follows without
    another look at the steps. */
module StepFrames {
  import opened Prelude
  import opened Lifecycle
  import opened StateStore
  import opened MergePolicy
  import opened MergeProtocol
  import Periods

  // --- the frame -----------------------------------------------------------------------------------

  predicate FindsMerge(s: TickStep) {
    s.AuditFoundMerge? || s.RecordBypass? || s.RecordFoundMerge?
  }

  predicate AboutMerges(t: Tick) {
    t.Retargeted? || t.Auditing? || t.Audited?
  }

  ghost predicate TickFrame(w: World, s: TickStep, after: World) {
    && after == w.(row := after.row, gh := after.gh, tick := after.tick, worker := after.worker,
                   reviewer := after.reviewer, smoking := after.smoking,
                   clone := w.clone.(tree := after.clone.tree), ciSeen := after.ciSeen, late := after.late,
                   merges := after.merges, audits := after.audits, entries := after.entries)
    && (s.PushTree? || after.gh.head == w.gh.head)
    && (!FindsMerge(s) ==> after.audits == w.audits && after.entries == w.entries)
    && (s.Retarget? || s.MergeIntoBranch?
        || (after.merges == w.merges && after.gh.base == w.gh.base && after.gh.merged == w.gh.merged))
    && (after.tick == w.tick || !AboutMerges(after.tick)
        || (s.Retarget? && w.tick.SawPr? && after.tick.Retargeted? && after.gh.base == after.tick.branch)
        || (FindsMerge(s) && !after.tick.Retargeted?))
    && (s.Retarget? ==> after.merges == w.merges && after.gh.merged == w.gh.merged)
    && (s.MergeIntoBranch? ==>
          && after.gh.base == w.gh.base && !after.tick.Retargeted? && (w.gh.merged ==> after.gh.merged)
          && (after.merges == w.merges || BranchMerged(w, after)))
    && (w.tick.Retargeted? && !s.LetGo? && !s.BlockIt? && !s.MergeIntoBranch? ==> after == w)
    && (s.LetGo? || s.BlockIt? ==> after.tick.Idle?)
  }

  ghost predicate BranchMerged(w: World, after: World) {
    && w.tick.Retargeted? && !w.gh.merged && |after.merges| == |w.merges| + 1
    && after.merges[..|w.merges|] == w.merges
    && Last(after.merges).BranchMerge? && Last(after.merges).branch == w.tick.branch
    && Last(after.merges).base == w.gh.base
  }

  /** The map has what it had for another call than `id`. */
  ghost predicate Beside(calls: map<int, Call>, after: map<int, Call>, id: int) {
    forall jd :: jd != id ==> (jd in after <==> jd in calls) && (jd in after ==> after[jd] == calls[jd])
  }

  ghost predicate CallFrame(w: World, id: int, s: CallStep, after: World) {
    && after == w.(row := after.row, gh := w.gh.(merged := after.gh.merged), calls := after.calls,
                   clone := w.clone.(fetched := after.clone.fetched), merges := after.merges, audits := after.audits,
                   entries := after.entries)
    && (w.gh.merged ==> after.gh.merged) && Beside(w.calls, after.calls, id)
    && (after.clone.fetched == w.clone.fetched || after.clone.fetched == w.branches)
    && (after.merges == w.merges || (s.CallMerge? && OwnerMerged(w, after)))
    && (s.CallRecord? || s.CallAudit? || (after.audits == w.audits && after.entries == w.entries))
  }

  ghost predicate OwnerMerged(w: World, after: World) {
    && |after.merges| == |w.merges| + 1 && after.merges[..|w.merges|] == w.merges && Last(after.merges).OwnerMerge?
  }

  ghost predicate LeadFrame(w: World, s: LeadStep, after: World) {
    if OnBranches(s) then
      after == w.(gh := w.gh.(base := after.gh.base), rootBranch := after.rootBranch, period := after.period,
                  rollup := after.rollup)
    else
      after == w.(row := after.row, smoking := after.smoking, asked := after.asked, leadSeen := after.leadSeen,
                  credits := after.credits)
  }

  ghost predicate Framed(w: World, a: Action, after: World) {
    match a
    case ByTick(s) => TickFrame(w, s, after)
    case ByWorker(_) => after == w.(row := after.row, worker := after.worker, late := after.late)
    case ByReviewer(_) =>
      after == w.(row := after.row, reviewer := after.reviewer, reviewed := after.reviewed, late := after.late)
    case ByCall(id, s) => CallFrame(w, id, s, after)
    case ByLead(s) => LeadFrame(w, s, after)
    case ByEnv(s) => after == NextEnv(w, s)
  }

  // --- every step keeps to it ----------------------------------------------------------------------

  /** A move changes the row, and the counts of repairs. */
  lemma MovesTouch(w: World, to: State, validated: Option<Sha>, seen: nat)
    ensures Try(w, to) == w.(row := Try(w, to).row)
    ensures TryWith(w, to, validated) == w.(row := TryWith(w, to, validated).row)
    ensures var after := Dispatch(w, seen, to, validated); after == w.(row := after.row, late := after.late)
    ensures var after := Ordered(w, to, validated); after == w.(row := after.row, credits := after.credits)
  {
    hide Allowed;
  }

  lemma ClaimTouches(rules: Rules, w: World, s: TickStep)
    ensures var after := NextClaim(rules, w, s);
            && after == w.(row := after.row, tick := after.tick, worker := after.worker, late := after.late)
            && (after == w || !w.tick.Retargeted?) && (after.tick == w.tick || !AboutMerges(after.tick))
  {
    hide Try, Dispatch, AttemptsLeft;
    if s.Unclaim? || s.AdoptPr? {
      hide NextClaim;
      UnclaimTouches(rules, w, s);
    } else if s.RequeueUnclaimed? || s.RequeueLost? {
      hide NextClaim;
      RequeueTouches(rules, w, s);
    }
  }

  lemma UnclaimTouches(rules: Rules, w: World, s: TickStep)
    requires s.Unclaim? || s.AdoptPr?
    ensures var after := NextClaim(rules, w, s);
            && after == w.(row := after.row, tick := after.tick, worker := after.worker, late := after.late)
            && (after == w || !w.tick.Retargeted?) && (after.tick == w.tick || !AboutMerges(after.tick))
  {
    hide Try, Dispatch;
    if w.tick.Claiming? {
      MovesTouch(w.(tick := Idle), QUEUED, w.row.validated, w.tick.seen);
      MovesTouch(w.(tick := Idle), PR_OPEN, None, 0);
    }
  }

  lemma RequeueTouches(rules: Rules, w: World, s: TickStep)
    requires s.RequeueUnclaimed? || s.RequeueLost?
    ensures var after := NextClaim(rules, w, s);
            && after == w.(row := after.row, tick := after.tick, worker := after.worker, late := after.late)
            && (after == w || !w.tick.Retargeted?) && (after.tick == w.tick || !AboutMerges(after.tick))
  {
    hide Try, Dispatch, AttemptsLeft;
    if w.tick.Took? {
      MovesTouch(w.(tick := Idle), QUEUED, w.row.validated, w.tick.row.attempt);
      MovesTouch(w.(tick := Idle), BLOCKED, None, 0);
    }
  }

  lemma AdvanceTouches(rules: Rules, w: World, s: TickStep)
    ensures var after := NextAdvance(rules, w, s);
            && after == w.(row := after.row, tick := after.tick, reviewer := after.reviewer, ciSeen := after.ciSeen,
                           late := after.late)
            && (after == w || !w.tick.Retargeted?) && (after.tick == w.tick || !AboutMerges(after.tick))
  {
    hide Allowed, AttemptsLeft;
  }

  /** It leaves everything alone but the tick, the worktree and the head. */
  lemma UpdateTouches(rules: Rules, w: World, s: TickStep)
    ensures var after := NextUpdate(rules, w, s);
            && after == w.(tick := after.tick, clone := w.clone.(tree := after.clone.tree),
                           gh := w.gh.(head := after.gh.head))
            && (s.PushTree? || after.gh == w.gh)
            && (after == w
                || ((w.tick.SawPr? || w.tick.Outdated? || w.tick.Updated?)
                    && (after.tick.Idle? || after.tick.Outdated? || after.tick.Updated? || after.tick.Pushed?)))
  {
    hide MergesTo, BehindRef;
  }

  lemma RecordTouches(w: World, reconciling: bool)
    ensures var after := RecordFound(w, reconciling);
            && after == w.(row := after.row, tick := after.tick, smoking := after.smoking, entries := after.entries)
            && (after == w || (w.tick.Audited? && after.tick.Idle?))
  {
    hide Try, TryWith, Allowed;
    if w.tick.Audited? {
      var idle := w.(tick := Idle);
      MovesTouch(idle, BLOCKED, None, 0);
      MovesTouch(idle.(smoking := true), INTEGRATED, w.tick.found, 0);
      MovesTouch(idle.(entries := w.entries + [FoundMerged(w.tick.audit)]), MERGED, w.tick.found, 0);
    }
  }

  lemma FoundTouches(rules: Rules, w: World, s: TickStep)
    ensures var after := NextFound(rules, w, s);
            && after == w.(row := after.row, tick := after.tick, smoking := after.smoking, audits := after.audits,
                           entries := after.entries)
            && (after == w || !(w.tick.Retargeted? || after.tick.Retargeted?))
  {
    hide RecordFound, ContextsGreen, ProtectedContexts;
    if s.RecordFoundMerge? { RecordTouches(w, s.reconciling); }
  }

  lemma RetargetTouches(rules: Rules, w: World, s: TickStep)
    requires s.Retarget?
    ensures var after := NextPassed(rules, w, s);
            && after == w.(gh := w.gh.(base := after.gh.base), tick := after.tick)
            && (after == w || (w.tick.SawPr? && after.tick.Retargeted? && after.gh.base == after.tick.branch))
  {
    hide JoinedBranch, GatesGreen;
  }

  lemma MergeTouches(rules: Rules, w: World, s: TickStep)
    requires s.MergeIntoBranch?
    ensures var after := NextPassed(rules, w, s);
            && after == w.(row := after.row, gh := w.gh.(merged := after.gh.merged), tick := after.tick,
                           merges := after.merges)
            && (w.gh.merged ==> after.gh.merged) && !after.tick.Retargeted? && (after == w || w.tick.Retargeted?)
            && (after.merges == w.merges || BranchMerged(w, after))
            && (after == w || !AboutMerges(after.tick))
  {
    hide Try;
    MovesTouch(w.(tick := Idle), BLOCKED, None, 0);
  }

  lemma LeavingReviewTouches(rules: Rules, w: World, s: TickStep)
    requires s.BecomeReady? || s.RecordIntegration?
    ensures var after := NextPassed(rules, w, s);
            && after == w.(row := after.row, tick := after.tick, smoking := after.smoking)
            && (after == w || ((w.tick.SawPr? || w.tick.MergedIntoBranch?) && after.tick.Idle?))
  {
    hide Try, TryWith, JoinedBranch, GatesGreen;
    MovesTouch(w.(tick := Idle), READY_FOR_OWNER, None, 0);
    if w.tick.MergedIntoBranch? {
      MovesTouch(w.(tick := Idle, smoking := true), INTEGRATED, Some(w.tick.mergeSha), 0);
    }
  }

  lemma LookTouches(rules: Rules, w: World, s: TickStep)
    requires s.TakeUp? || s.ReadPr? || s.LetGo? || s.BlockIt?
    ensures var after := NextTick(rules, w, s);
            && after == w.(row := after.row, tick := after.tick)
            && (after == w || !AboutMerges(after.tick)) && (s.LetGo? || s.BlockIt? ==> after.tick.Idle?)
            && (after == w || s.LetGo? || s.BlockIt? || !w.tick.Retargeted?)
  {
    hide Allowed;
  }

  lemma WorkerTouches(rules: Rules, w: World, s: WorkerStep)
    ensures var after := NextWorker(rules, w, s);
            after == w.(row := after.row, worker := after.worker, late := after.late)
  {
    hide Try, TryWith, Dispatch, AttemptsLeft;
    var idle := w.(worker := NoWorker);
    match s
    case RequeueRateLimited => MovesTouch(idle, QUEUED, None, 0);
    case SettleFailed =>
      if w.worker.Failing? { MovesTouch(idle, QUEUED, w.row.validated, w.worker.row.attempt); }
      MovesTouch(idle, BLOCKED, None, 0);
    case ReportBlocked => MovesTouch(idle, BLOCKED, None, 0);
    case FinishRun => MovesTouch(idle, PR_OPEN, None, 0);
    case _ =>
  }

  lemma ReviewerTouches(rules: Rules, w: World, s: ReviewStep)
    ensures var after := NextReviewer(rules, w, s);
            after == w.(row := after.row, reviewer := after.reviewer, reviewed := after.reviewed, late := after.late)
  {
    hide Try, Dispatch, AttemptsLeft;
    if s.Settle? && w.reviewer.Wrote? {
      var idle := w.(reviewer := NoReviewer);
      MovesTouch(idle, FIX_REQUIRED, w.row.validated, w.reviewer.row.attempt);
      MovesTouch(idle, BLOCKED, None, 0);
    }
  }

  predicate MovesIssue(s: LeadStep) {
    s.BlockIssue? || s.Finish? || s.ChangeRequest? || s.OrderRepair? || s.Resume? || s.AdoptIntegration?
    || s.SmokeReverted?
  }

  lemma ChangeRequestTouches(w: World)
    ensures var after := NextOrder(w, ChangeRequest);
            after == w.(row := after.row, asked := after.asked, credits := after.credits)
  {
    hide Try, Ordered;
    if w.asked > 0 {
      MovesTouch(w.(asked := w.asked - 1), BLOCKED, None, 0);
      MovesTouch(w.(asked := w.asked - 1), FIX_REQUIRED, w.row.validated, 0);
    }
  }

  lemma MovingOrderTouches(w: World, s: LeadStep)
    requires MovesIssue(s)
    ensures var after := NextOrder(w, s);
            after == w.(row := after.row, smoking := after.smoking, asked := after.asked, credits := after.credits)
  {
    hide Try, TryWith, Ordered;
    match s
    case BlockIssue => MovesTouch(w, BLOCKED, None, 0);
    case Finish => MovesTouch(w, DONE, None, 0);
    case ChangeRequest => ChangeRequestTouches(w);
    case OrderRepair => MovesTouch(w, FIX_REQUIRED, w.row.validated, 0);
    case Resume => MovesTouch(w, PR_OPEN, None, 0);
    case AdoptIntegration(sha) => MovesTouch(w.(smoking := true), INTEGRATED, Some(sha), 0);
    case SmokeReverted => MovesTouch(w.(smoking := false), FIX_REQUIRED, None, 0);
  }

  lemma OrderTouches(w: World, s: LeadStep)
    ensures var after := NextOrder(w, s);
            after == w.(row := after.row, smoking := after.smoking, asked := after.asked, leadSeen := after.leadSeen,
                        credits := after.credits)
  {
    hide Try, TryWith, Ordered;
    if MovesIssue(s) {
      hide NextOrder;
      MovingOrderTouches(w, s);
    }
  }

  /** A step that minds the row and the threads, and nothing about merges. */
  ghost predicate Ordinary(w: World, after: World) {
    && after == w.(row := after.row, tick := after.tick, worker := after.worker, reviewer := after.reviewer,
                   smoking := after.smoking, ciSeen := after.ciSeen, late := after.late)
    && (after == w || !w.tick.Retargeted?) && (after.tick == w.tick || !AboutMerges(after.tick))
  }

  lemma OrdinaryIsFramed(w: World, s: TickStep, after: World)
    requires Ordinary(w, after) && !s.Retarget? && !s.MergeIntoBranch? && !s.LetGo? && !s.BlockIt?
    ensures TickFrame(w, s, after)
  {
  }

  lemma AdvancingIsFramed(rules: Rules, w: World, s: TickStep)
    requires !s.TakeUp? && !s.ReadPr? && !s.LetGo? && !s.BlockIt? && !FindsMerge(s)
    requires !s.FindBehind? && !s.MergeBase? && !s.PushTree? && !s.Retarget? && !s.MergeIntoBranch?
    ensures TickFrame(w, s, NextTick(rules, w, s))
  {
    hide NextClaim, NextAdvance, NextUpdate, NextPassed, NextFound, TickFrame;
    ClaimTouches(rules, w, s);
    AdvanceTouches(rules, w, s);
    if s.BecomeReady? || s.RecordIntegration? { LeavingReviewTouches(rules, w, s); }
    OrdinaryIsFramed(w, s, NextTick(rules, w, s));
  }

  lemma LookingIsFramed(rules: Rules, w: World, s: TickStep)
    requires s.TakeUp? || s.ReadPr? || s.LetGo? || s.BlockIt?
    ensures TickFrame(w, s, NextTick(rules, w, s))
  {
    hide NextTick;
    LookTouches(rules, w, s);
  }

  lemma FindingIsFramed(rules: Rules, w: World, s: TickStep)
    requires FindsMerge(s)
    ensures TickFrame(w, s, NextTick(rules, w, s))
  {
    hide NextClaim, NextAdvance, NextUpdate, NextPassed, NextFound, Try;
    FoundTouches(rules, w, s);
  }

  lemma UpdatingIsFramed(rules: Rules, w: World, s: TickStep)
    requires s.FindBehind? || s.MergeBase? || s.PushTree?
    ensures TickFrame(w, s, NextTick(rules, w, s))
  {
    hide NextClaim, NextAdvance, NextUpdate, NextPassed, NextFound, Try;
    UpdateTouches(rules, w, s);
  }

  lemma SendingIsFramed(rules: Rules, w: World, s: TickStep)
    requires s.Retarget? || s.MergeIntoBranch?
    ensures TickFrame(w, s, NextTick(rules, w, s))
  {
    hide NextClaim, NextAdvance, NextUpdate, NextPassed, NextFound, Try;
    if s.Retarget? { RetargetTouches(rules, w, s); } else { MergeTouches(rules, w, s); }
  }

  lemma TickIsFramed(rules: Rules, w: World, s: TickStep)
    ensures TickFrame(w, s, NextTick(rules, w, s))
  {
    hide NextTick, TickFrame;
    if s.TakeUp? || s.ReadPr? || s.LetGo? || s.BlockIt? {
      LookingIsFramed(rules, w, s);
    } else if FindsMerge(s) {
      FindingIsFramed(rules, w, s);
    } else if s.FindBehind? || s.MergeBase? || s.PushTree? {
      UpdatingIsFramed(rules, w, s);
    } else if s.Retarget? || s.MergeIntoBranch? {
      SendingIsFramed(rules, w, s);
    } else {
      AdvancingIsFramed(rules, w, s);
    }
  }

  lemma HeadTouches(rules: Rules, w: World, id: int)
    ensures CallFrame(w, id, CallHead, NextCall(rules, w, id, CallHead))
  {
    hide TryWith;
    MovesTouch(Drop(w, id), CI, None, 0);
  }

  lemma ReadingTouches(rules: Rules, w: World, id: int, s: CallStep)
    requires !s.CallHead? && !s.CallMerge? && !s.CallRecord? && !s.CallAudit?
    ensures var after := NextCall(rules, w, id, s);
            && after == w.(calls := after.calls, clone := w.clone.(fetched := after.clone.fetched))
            && (after.clone.fetched == w.clone.fetched || after.clone.fetched == w.branches)
            && Beside(w.calls, after.calls, id)
  {
    hide Approved, StartsWith, BehindRef;
  }

  lemma RecordingTouches(rules: Rules, w: World, id: int, s: CallStep)
    requires s.CallMerge? || s.CallRecord? || s.CallAudit?
    ensures CallFrame(w, id, s, NextCall(rules, w, id, s))
  {
    hide Allowed, Behind;
  }

  lemma CallIsFramed(rules: Rules, w: World, id: int, s: CallStep)
    ensures CallFrame(w, id, s, NextCall(rules, w, id, s))
  {
    hide NextCall;
    if s.CallHead? {
      HeadTouches(rules, w, id);
    } else if s.CallMerge? || s.CallRecord? || s.CallAudit? {
      RecordingTouches(rules, w, id, s);
    } else {
      ReadingTouches(rules, w, id, s);
    }
  }

  lemma BranchesTouch(rules: Rules, w: World, s: LeadStep)
    ensures var after := NextBranches(rules, w, s);
            after == w.(gh := w.gh.(base := after.gh.base), rootBranch := after.rootBranch, period := after.period,
                        rollup := after.rollup)
  {
    hide StartsWith, Periods.IsPeriodAround;
  }

  /** Every step of the machine. */
  lemma StepIsFramed(rules: Rules, w: World, a: Action)
    ensures Framed(w, a, Next(rules, w, a))
  {
    hide NextTick, NextWorker, NextReviewer, NextCall, NextOrder, NextBranches, TickFrame, CallFrame, OnBranches;
    match a
    case ByTick(s) => TickIsFramed(rules, w, s);
    case ByWorker(s) => WorkerTouches(rules, w, s);
    case ByReviewer(s) => ReviewerTouches(rules, w, s);
    case ByCall(id, s) => CallIsFramed(rules, w, id, s);
    case ByLead(s) => if OnBranches(s) { BranchesTouch(rules, w, s); } else { OrderTouches(w, s); }
    case ByEnv(_) =>
  }
}
