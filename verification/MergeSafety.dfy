/** What the owner merges: in every run, a head whose gates and review were green on that very SHA. */
module MergeSafety {
  import opened Prelude
  import opened Lifecycle
  import opened StateStore
  import opened MergePolicy
  import opened MergeProtocol
  import opened StepFrames

  /** The verdict, if there is one, names a SHA and was delivered on it. */
  ghost predicate Given(v: Option<Verdict>, reviewed: set<(VerdictKind, Sha)>) {
    v.Some? ==> v.value.sha.Some? && (v.value.kind, v.value.sha.value) in reviewed
  }

  predicate PastCi(s: State) {
    s.REVIEW? || s.READY_FOR_OWNER?
  }

  /** The SHA a row calls validated was seen green, and its verdict was given. */
  ghost predicate Backed(row: IssueRow, ciSeen: set<Sha>, reviewed: set<(VerdictKind, Sha)>) {
    && (PastCi(row.state) && row.validated.Some? ==> row.validated.value in ciSeen)
    && Given(row.verdict, reviewed)
  }

  /** While the tick holds a row it listed in CI, nobody else brings the Issue into REVIEW or READY_FOR_OWNER. */
  ghost predicate Held(w: World, row: IssueRow) {
    Backed(row, w.ciSeen, w.reviewed) && (row.state == CI ==> !PastCi(w.row.state))
  }

  ghost predicate TickOk(rules: Rules, w: World) {
    match w.tick
    case Took(row) => Held(w, row)
    case SawPr(row, _) => Held(w, row)
    case SawGreen(_) =>
      !PastCi(w.row.state) && (w.row.state == CI && w.row.validated.Some? ==> w.row.validated.value in w.ciSeen)
    case Retargeted(row, ev, lost, _) => Backed(row, w.ciSeen, w.reviewed) && GatesGreen(rules, row, ev, lost)
    case _ => true
  }

  /** Everything that has to be true of a decision to merge `head`. */
  ghost predicate Justified(rules: Rules, row: IssueRow, head: Sha, ev: CiEvidence, lost: bool, githubGates: bool,
                            ciSeen: set<Sha>, reviewed: set<(VerdictKind, Sha)>)
  {
    && head in ciSeen && ev.head == head && Given(row.verdict, reviewed)
    && Approved(row, Some(ev), rules.policy,
        if row.verdict.Some? then row.verdict.value.sha else None, lost, githubGates)
  }

  ghost predicate MergeOk(rules: Rules, m: Merge, ciSeen: set<Sha>, reviewed: set<(VerdictKind, Sha)>) {
    && m.headThen == m.sha && Justified(rules, m.row, m.sha, m.ev, m.lost, m.OwnerMerge?, ciSeen, reviewed)
    && (m.OwnerMerge? ==> (m.behindRead.Some? ==> m.behindRead.value == 0))
    && (m.BranchMerge? ==> m.row.verdict == Some(Verdict(APPROVE, Some(m.sha))))
  }

  ghost predicate CallOk(rules: Rules, c: Call, ciSeen: set<Sha>, reviewed: set<(VerdictKind, Sha)>) {
    match c
    case Checked(row) => row.validated.Some? && row.validated.value in ciSeen
    case SawHead(_, head, _) => head in ciSeen
    case ReRead(row, head, _, _) => head in ciSeen && Given(row.verdict, reviewed)
    case Decided(row, head, _, lost, ev) => Justified(rules, row, head, ev, lost, true, ciSeen, reviewed)
    case Fetched(row, head, _, lost, ev) => Justified(rules, row, head, ev, lost, true, ciSeen, reviewed)
    case BaseRead(row, head, _, lost, ev, behind) =>
      Justified(rules, row, head, ev, lost, true, ciSeen, reviewed) && (behind.Some? ==> behind.value == 0)
    case _ => true
  }

  ghost predicate MergesOk(rules: Rules, w: World) {
    forall m :: m in w.merges ==> MergeOk(rules, m, w.ciSeen, w.reviewed)
  }

  ghost predicate CallsOk(rules: Rules, w: World) {
    forall id :: id in w.calls ==> CallOk(rules, w.calls[id], w.ciSeen, w.reviewed)
  }

  ghost predicate Safe(rules: Rules, w: World) {
    Backed(w.row, w.ciSeen, w.reviewed) && TickOk(rules, w) && MergesOk(rules, w) && CallsOk(rules, w)
  }

  // --- steps that only move the row ---------------------------------------------------------------

  /** What anybody but the tick, a reviewer or GitHub may do to the row: keep its evidence backed, and enter neither
      CI, REVIEW nor READY_FOR_OWNER. */
  ghost predicate Tame(w: World, after: World) {
    && (after.tick == w.tick || after.tick.Idle?) && after.calls == w.calls && after.merges == w.merges
    && after.ciSeen == w.ciSeen && after.reviewed == w.reviewed && Backed(after.row, w.ciSeen, w.reviewed)
    && (PastCi(after.row.state) ==> w.row.state == after.row.state)
    && (after.row.state == CI ==> w.row.state == CI && after.row.validated == w.row.validated)
  }

  lemma TameKeeps(rules: Rules, w: World, after: World)
    requires Safe(rules, w) && Tame(w, after)
    ensures Safe(rules, after)
  {
    hide Approved, GatesGreen, CallOk, MergeOk;
  }

  /** No move to any other state than those three is anything but tame. */
  lemma MovesAreTame(w: World, mid: World)
    requires Tame(w, mid)
    ensures forall to :: !PastCi(to) && to != CI ==> Tame(w, Try(mid, to))
    ensures forall to, v :: !PastCi(to) && to != CI ==> Tame(w, TryWith(mid, to, v))
    ensures forall to, v :: !PastCi(to) && to != CI ==> Tame(w, Ordered(mid, to, v))
    ensures forall to, v, seen :: !PastCi(to) && to != CI ==> Tame(w, Dispatch(mid, seen, to, v))
  {
    hide Allowed;
  }

  lemma OrdersAreTame(w: World, s: LeadStep)
    requires Backed(w.row, w.ciSeen, w.reviewed)
    ensures Tame(w, NextOrder(w, s))
  {
    hide Allowed, Try, TryWith, Ordered, Dispatch;
    match s
    case BlockIssue => MovesAreTame(w, w);
    case Finish => MovesAreTame(w, w);
    case OrderRepair => MovesAreTame(w, w);
    case Resume => MovesAreTame(w, w);
    case ChangeRequest => if w.asked > 0 { MovesAreTame(w, w.(asked := w.asked - 1)); }
    case AdoptIntegration(_) => MovesAreTame(w, w.(smoking := true));
    case SmokeReverted => MovesAreTame(w, w.(smoking := false));
    case _ =>
  }

  lemma BranchesAreTame(rules: Rules, w: World, s: LeadStep)
    requires Backed(w.row, w.ciSeen, w.reviewed)
    ensures Tame(w, NextBranches(rules, w, s))
  {
    hide StartsWith;
  }

  lemma WorkersAreTame(rules: Rules, w: World, s: WorkerStep)
    requires Backed(w.row, w.ciSeen, w.reviewed)
    ensures Tame(w, NextWorker(rules, w, s))
  {
    hide AttemptsLeft, Allowed, Try, TryWith, Ordered, Dispatch;
    MovesAreTame(w, w.(worker := NoWorker));
  }

  lemma ClaimsAreTame(rules: Rules, w: World, s: TickStep)
    requires Backed(w.row, w.ciSeen, w.reviewed) && !s.Claim?
    ensures Tame(w, NextClaim(rules, w, s))
  {
    hide AttemptsLeft, Allowed, Try, TryWith, Ordered, Dispatch;
    MovesAreTame(w, w.(tick := Idle));
  }

  lemma FoundIsTame(rules: Rules, w: World, reconciling: bool)
    requires Backed(w.row, w.ciSeen, w.reviewed)
    ensures Tame(w, RecordFound(w, reconciling))
  {
    hide Allowed, Try, TryWith, Ordered, Dispatch;
    if w.tick.Audited? {
      var idle := w.(tick := Idle);
      if w.tick.row.state != READY_FOR_OWNER {
        MovesAreTame(w, idle);
      } else if !reconciling && w.rootBranch == Some(w.tick.pr.base) {
        MovesAreTame(w, idle.(smoking := true));
      } else {
        MovesAreTame(w, idle.(entries := w.entries + [FoundMerged(w.tick.audit)]));
      }
    }
  }

  // --- the tick ----------------------------------------------------------------------------------

  lemma ClaimKeeps(rules: Rules, w: World, s: TickStep)
    requires Safe(rules, w)
    ensures Safe(rules, NextClaim(rules, w, s))
  {
    hide Approved, GatesGreen, CallOk, MergeOk, AttemptsLeft;
    if s.Claim? {
    } else {
      ClaimsAreTame(rules, w, s);
      TameKeeps(rules, w, NextClaim(rules, w, s));
    }
  }

  lemma LookKeeps(rules: Rules, w: World, s: TickStep)
    requires Safe(rules, w) && (s.TakeUp? || s.ReadPr? || s.LetGo? || s.BlockIt?)
    ensures Safe(rules, NextTick(rules, w, s))
  {
    hide Approved, GatesGreen, CallOk, MergeOk;
  }

  lemma SeeGreenKeeps(rules: Rules, w: World, s: TickStep)
    requires Safe(rules, w) && s.SeeGreen?
    ensures Safe(rules, NextAdvance(rules, w, s))
  {
    hide Approved, AttemptsLeft;
  }

  lemma AdvanceKeeps(rules: Rules, w: World, s: TickStep)
    requires Safe(rules, w) && !s.SeeGreen?
    ensures Safe(rules, NextAdvance(rules, w, s))
  {
    hide Approved, GatesGreen, CallOk, MergeOk, AttemptsLeft;
  }

  lemma UpdateKeeps(rules: Rules, w: World, s: TickStep)
    requires Safe(rules, w)
    ensures Safe(rules, NextUpdate(rules, w, s))
  {
    hide NextUpdate, Approved, GatesGreen, CallOk, MergeOk;
    UpdateTouches(rules, w, s);
  }

  lemma GatesPassedKeep(rules: Rules, w: World, s: TickStep)
    requires Safe(rules, w) && (s.BecomeReady? || s.Retarget? || s.RecordIntegration?)
    ensures Safe(rules, NextPassed(rules, w, s))
  {
    hide Approved, StartsWith, CallOk, MergeOk, JoinedBranch;
  }

  lemma BranchMergeKeeps(rules: Rules, w: World, s: TickStep)
    requires Safe(rules, w) && s.MergeIntoBranch?
    ensures Safe(rules, NextPassed(rules, w, s))
  {
    hide StartsWith, CallOk, JoinedBranch, RequiredFor;
  }

  lemma FoundKeeps(rules: Rules, w: World, s: TickStep)
    requires Safe(rules, w)
    ensures Safe(rules, NextFound(rules, w, s))
  {
    hide Approved, GatesGreen, CallOk, MergeOk, ContextsGreen, ProtectedContexts;
    if s.RecordFoundMerge? {
      FoundIsTame(rules, w, s.reconciling);
      TameKeeps(rules, w, NextFound(rules, w, s));
    }
  }

  lemma TickKeeps(rules: Rules, w: World, s: TickStep)
    requires Safe(rules, w)
    ensures Safe(rules, NextTick(rules, w, s))
  {
    hide Safe, NextClaim, NextAdvance, NextUpdate, NextPassed, NextFound;
    if s.TakeUp? || s.ReadPr? || s.LetGo? || s.BlockIt? {
      LookKeeps(rules, w, s);
    } else {
      ClaimKeeps(rules, w, s);
      FoundKeeps(rules, w, s);
      UpdateKeeps(rules, w, s);
      if s.SeeGreen? { SeeGreenKeeps(rules, w, s); } else { AdvanceKeeps(rules, w, s); }
      if s.MergeIntoBranch? {
        BranchMergeKeeps(rules, w, s);
      } else if s.BecomeReady? || s.Retarget? || s.RecordIntegration? {
        GatesPassedKeep(rules, w, s);
      }
    }
  }

  lemma VerdictKeeps(rules: Rules, w: World, s: ReviewStep)
    requires Safe(rules, w) && s.WriteVerdict?
    ensures Safe(rules, NextReviewer(rules, w, s))
  {
    hide Approved, AttemptsLeft, GatesGreen, StartsWith;
  }

  lemma ReviewersAreTame(rules: Rules, w: World, s: ReviewStep)
    requires Backed(w.row, w.ciSeen, w.reviewed) && !s.WriteVerdict?
    ensures Tame(w, NextReviewer(rules, w, s))
  {
    hide AttemptsLeft, Allowed, Try, TryWith, Ordered, Dispatch;
    MovesAreTame(w, w.(reviewer := NoReviewer));
  }

  lemma ReviewerKeeps(rules: Rules, w: World, s: ReviewStep)
    requires Safe(rules, w)
    ensures Safe(rules, NextReviewer(rules, w, s))
  {
    hide NextReviewer, TickOk, MergesOk, CallsOk, Backed, Tame;
    if s.WriteVerdict? {
      VerdictKeeps(rules, w, s);
    } else {
      ReviewersAreTame(rules, w, s);
      TameKeeps(rules, w, NextReviewer(rules, w, s));
    }
  }

  // --- the owner's merge -------------------------------------------------------------------------

  lemma CallBeginKeeps(rules: Rules, w: World, id: int, s: CallStep)
    requires Safe(rules, w) && s.CallBegin?
    ensures Safe(rules, NextCall(rules, w, id, s))
  {
    hide Approved, StartsWith, GatesGreen, MergeOk, Justified, Allowed;
  }

  lemma DropKeeps(rules: Rules, w: World, id: int)
    requires Safe(rules, w)
    ensures Safe(rules, Drop(w, id))
  {
    hide Approved, GatesGreen, MergeOk, CallOk;
  }

  lemma InvalidatingKeeps(rules: Rules, w: World)
    requires Safe(rules, w)
    ensures Safe(rules, TryWith(w, CI, None))
  {
    hide Approved, GatesGreen, MergeOk, CallOk, Allowed;
  }

  lemma CallHeadKeeps(rules: Rules, w: World, id: int, s: CallStep)
    requires Safe(rules, w) && s.CallHead?
    ensures Safe(rules, NextCall(rules, w, id, s))
  {
    hide Approved, StartsWith, MergeOk, GatesGreen, Justified, Drop, TryWith;
    DropKeeps(rules, w, id);
    InvalidatingKeeps(rules, Drop(w, id));
  }

  lemma CallReadsKeep(rules: Rules, w: World, id: int, s: CallStep)
    requires Safe(rules, w) && (s.CallRefresh? || s.CallFetch? || s.CallBase? || s.CallRefuse?)
    ensures Safe(rules, NextCall(rules, w, id, s))
  {
    hide Approved, StartsWith, GatesGreen, MergeOk, Justified, Allowed;
  }

  lemma CallDecideKeeps(rules: Rules, w: World, id: int, s: CallStep)
    requires Safe(rules, w) && s.CallDecide?
    ensures Safe(rules, NextCall(rules, w, id, s))
  {
    hide Approved, StartsWith, GatesGreen, MergeOk;
  }

  lemma CallMergeKeeps(rules: Rules, w: World, id: int, s: CallStep)
    requires Safe(rules, w) && s.CallMerge?
    ensures Safe(rules, NextCall(rules, w, id, s))
  {
    hide Approved, StartsWith, GatesGreen;
  }

  lemma CallRecordsKeep(rules: Rules, w: World, id: int, s: CallStep)
    requires Safe(rules, w) && (s.CallRecord? || s.CallAudit?)
    ensures Safe(rules, NextCall(rules, w, id, s))
  {
    hide Approved, StartsWith, GatesGreen, MergeOk, Justified;
  }

  lemma CallKeeps(rules: Rules, w: World, id: int, s: CallStep)
    requires Safe(rules, w)
    ensures Safe(rules, NextCall(rules, w, id, s))
  {
    hide Safe, NextCall;
    if s.CallDecide? {
      CallDecideKeeps(rules, w, id, s);
    } else if s.CallMerge? {
      CallMergeKeeps(rules, w, id, s);
    } else if s.CallRecord? || s.CallAudit? {
      CallRecordsKeep(rules, w, id, s);
    } else if s.CallBegin? {
      CallBeginKeeps(rules, w, id, s);
    } else if s.CallHead? {
      CallHeadKeeps(rules, w, id, s);
    } else {
      CallReadsKeep(rules, w, id, s);
    }
  }

  lemma EnvKeeps(rules: Rules, w: World, s: EnvStep)
    requires Safe(rules, w)
    ensures Safe(rules, NextEnv(w, s))
  {
    hide Approved, GatesGreen, MergeOk, CallOk;
  }

  lemma StepKeepsSafe(rules: Rules, w: World, a: Action)
    requires Safe(rules, w)
    ensures Safe(rules, Next(rules, w, a))
  {
    hide TickOk, MergesOk, CallsOk, Backed, NextTick, NextWorker, NextReviewer, NextCall, NextOrder, NextBranches,
         NextEnv, OnBranches, Tame;
    match a
    case ByTick(s) => TickKeeps(rules, w, s);
    case ByWorker(s) =>
      WorkersAreTame(rules, w, s);
      TameKeeps(rules, w, NextWorker(rules, w, s));
    case ByReviewer(s) => ReviewerKeeps(rules, w, s);
    case ByCall(id, s) => CallKeeps(rules, w, id, s);
    case ByLead(s) =>
      OrdersAreTame(w, s);
      TameKeeps(rules, w, NextOrder(w, s));
      BranchesAreTame(rules, w, s);
      TameKeeps(rules, w, NextBranches(rules, w, s));
    case ByEnv(s) => EnvKeeps(rules, w, s);
  }

  lemma {:induction false} EveryRunIsSafe(rules: Rules, w: World, actions: seq<Action>)
    requires Safe(rules, w)
    ensures Safe(rules, RunOf(rules, w, actions))
    decreases actions
  {
    hide Safe, Next;
    if actions != [] {
      StepKeepsSafe(rules, w, actions[0]);
      EveryRunIsSafe(rules, Next(rules, w, actions[0]), actions[1..]);
    }
  }

  /** In every run, whatever interleaves, an owner merge (a rollup's among them) merged exactly the SHA that was the
      pull request's head at that moment and on which CI had been seen green; every protected context was green on
      that SHA; with a reviewer requirement an independent reviewer approved that very SHA; and a contract with a LOST
      allowance carried its recorded approval. The base had not advanced when its call read it, if it could; what it
      was at the merge is another matter (`OwnerBase`). */
  lemma OwnerMergesAreSafe(rules: Rules, start: World, actions: seq<Action>, m: Merge)
    requires Initial(start) && m in RunOf(rules, start, actions).merges && m.OwnerMerge?
    ensures var w := RunOf(rules, start, actions);
            && m.sha == m.headThen && m.sha in w.ciSeen && m.ev.head == m.sha
            && ContextsGreen(m.ev, ProtectedContexts(rules.policy))
            && (CiGreen in RequiredFor(rules.policy, m.row.risk) ==> m.ev.status == SUCCESS)
            && (ReviewerGreen in RequiredFor(rules.policy, m.row.risk) ==>
                  m.row.verdict == Some(Verdict(APPROVE, Some(m.sha))) && (APPROVE, m.sha) in w.reviewed)
            && (m.lost ==> "lost_allowance" in m.row.approvals)
            && (m.behindRead.Some? ==> m.behindRead.value == 0)
  {
    hide Approved, ContextsGreen, ProtectedContexts, RequiredFor, Next, GatesGreen, CallOk;
    EveryRunIsSafe(rules, start, actions);
    ApprovalMeans(m.row, m.ev, rules.policy, m.lost);
  }

  /** The orchestrator's own merges, too, take the very head that CI and the reviewer passed. */
  lemma BranchMergesAreReviewed(rules: Rules, start: World, actions: seq<Action>, m: Merge)
    requires Initial(start) && m in RunOf(rules, start, actions).merges && m.BranchMerge?
    ensures var w := RunOf(rules, start, actions);
            m.sha == m.headThen && m.sha in w.ciSeen && m.ev.head == m.sha && (APPROVE, m.sha) in w.reviewed
  {
    hide Approved, Next, GatesGreen, CallOk;
    EveryRunIsSafe(rules, start, actions);
  }
}
