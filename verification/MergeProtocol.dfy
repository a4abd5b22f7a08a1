/** One Issue's life as several threads, processes and people drive it, one store transaction or GitHub request at a
    time: the orchestrator's tick, a worker thread, a reviewer thread, `owner_merge` calls, the lead's and the owner's
    commands, and the outside. Anything may happen between two steps of one of them, and each decides on the row it
    read itself, however old that has become. */
module MergeProtocol {
  import opened Prelude
  import opened Lifecycle
  import opened StateStore
  import opened MergePolicy
  import Periods
  import Reconciliation

  /** `history`: the commits reachable from a commit, itself among them. */
  datatype Rules = Rules(policy: Policy, cal: Periods.Calendar, history: Sha -> set<Sha>)

  datatype PullRequest = PullRequest(head: Sha, merged: bool, base: string)

  /** The local clone: the branches as last fetched, its own branches, and the HEAD of the Issue's worktree. */
  datatype Clone = Clone(fetched: map<string, Sha>, locals: map<string, Sha>, tree: Sha)

  /** A merge GitHub performed for us: what was merged, and what it was decided on. */
  datatype Merge =
    | OwnerMerge(sha: Sha, headThen: Sha, row: IssueRow, ev: CiEvidence, lost: bool,
                 baseRead: string, behindRead: Option<nat>,  // the base the call read, and how far behind it counted
                 baseThen: string, behindThen: nat)          // the base at the merge, and how far behind the merge was
    | BranchMerge(sha: Sha, headThen: Sha, row: IssueRow, ev: CiEvidence, lost: bool, branch: string, base: string)

  /** A `merge_gate_audit` event; `admin` tells whether `admin_bypass_detected` followed it, and `entry` names the
      owner's merge it is about. Evidence that could not be read is absent. */
  datatype Audit = Audit(head: Sha, ev: Option<CiEvidence>, bypass: bool, admin: bool, entry: Option<nat>)

  /** A move into MERGED: the owner's merge, or one found outside, with the position of its audit. */
  datatype Entry = ByOwner(merge: Merge) | FoundMerged(audit: nat)

  /** How far one `owner_merge` call has come. */
  datatype Call =
    | Checked(row: IssueRow)
    | SawHead(row: IssueRow, head: Sha, base: string)
    | ReRead(row: IssueRow, head: Sha, base: string, lost: bool)
    | Decided(row: IssueRow, head: Sha, base: string, lost: bool, ev: CiEvidence)
    | Fetched(row: IssueRow, head: Sha, base: string, lost: bool, ev: CiEvidence)
    | BaseRead(row: IssueRow, head: Sha, base: string, lost: bool, ev: CiEvidence, behind: Option<nat>)
    | MergedOnGitHub(merge: Merge, mergeSha: Sha)
    | Recorded(entry: nat)

  /** Where the tick stands with this Issue, with the row as the tick listed it. */
  datatype Tick =
    | Idle
    | Claiming(seen: nat)
    | Took(row: IssueRow)
    | SawPr(row: IssueRow, pr: PullRequest)
    | SawGreen(head: Sha)
    | Outdated(row: IssueRow, base: string)
    | Updated(row: IssueRow)
    | Pushed(row: IssueRow)
    | Retargeted(row: IssueRow, ev: CiEvidence, lost: bool, branch: string)
    | MergedIntoBranch(mergeSha: Sha)
    | Auditing(row: IssueRow, pr: PullRequest, found: Option<Sha>, audit: nat)
    | Audited(row: IssueRow, pr: PullRequest, found: Option<Sha>, audit: nat)

  /** The worker thread, with the row (or attempt count) it read. */
  datatype Worker =
    | NoWorker
    | Spawned(repair: bool)
    | Starting(repair: bool, seen: nat)
    | Running
    | Completing(row: IssueRow)
    | GivenBack
    | Failing(row: IssueRow)

  /** The reviewer thread, with the head it was given and the row it read after its run. */
  datatype Reviewer =
    | NoReviewer
    | Reading(head: Sha)
    | Read(head: Sha, row: IssueRow)
    | Wrote(head: Sha, row: IssueRow, kind: VerdictKind)

  datatype World = World(
    row: IssueRow, gh: PullRequest, tick: Tick, worker: Worker, reviewer: Reviewer, smoking: bool,
    calls: map<int, Call>,
    branches: map<string, Sha>,          // the tips of GitHub's branches
    clone: Clone,
    asked: nat,                          // owner change requests that have checked the row and not yet moved it
    leadSeen: Option<nat>,               // the attempt count a requeue command has read
    rootBranch: Option<string>,          // the integration branch registered for the Issue's ROOT
    period: Option<Periods.Period>,      // the protected period being kept
    rollup: Option<string>,              // the integration branch of the pending rollup
    ciSeen: set<Sha>,                    // heads on which a tick saw the deterministic gates green
    reviewed: set<(VerdictKind, Sha)>,   // verdicts reviewer runs delivered, with the head they read
    credits: nat,                        // repairs and requeues people ordered, and smoke reverts, that happened
    late: nat,                           // automatic dispatches decided on a row whose attempt count had since grown
    merges: seq<Merge>, audits: seq<Audit>, entries: seq<Entry>)

  datatype TickStep =
    | TakeUp | ReadPr | LetGo | BlockIt
    | Claim | SpawnWorker | Unclaim | AdoptPr
    | RequeueUnclaimed | RequeueLost | SpawnFixer
    | EnterCi | SeeGreen(ev: CiEvidence) | EnterReview | HeadMoved
    | DispatchFixer(clear: bool) | DispatchParked | StartReview
    | BecomeReady(ev: CiEvidence, lost: bool)
    | Retarget(ev: CiEvidence, lost: bool) | MergeIntoBranch(mergeSha: Sha) | RecordIntegration
    | FindBehind | MergeBase(merge: Sha) | PushTree | InvalidateReadiness
    | AuditFoundMerge(read: Option<CiEvidence>, found: Option<Sha>) | RecordBypass | RecordFoundMerge(reconciling: bool)

  datatype WorkerStep =
    | ReadForRun | StartRun | EndRun
    | GiveBack | RequeueRateLimited | RereadFailed | SettleFailed | ReportBlocked | FinishRun

  datatype ReviewStep = ReadReview | WriteVerdict(kind: VerdictKind) | Settle | ReviewOver

  datatype CallStep =
    | CallBegin(requested: string) | CallHead | CallRefresh(lost: bool) | CallDecide(ev: CiEvidence)
    | CallFetch(ok: bool) | CallBase(readable: bool) | CallRefuse | CallMerge(mergeSha: Sha) | CallRecord | CallAudit

  datatype LeadStep =
    | RefreshContract(risk: Risk) | RecordApproval(name: string) | BlockIssue | Finish
    | AskChange | ChangeRequest | ReadForRequeue | Requeue(reset: bool) | OrderRepair | ClearVerdict | Resume
    | AdoptIntegration(mergeSha: Sha) | SmokePassed | SmokeReverted
    | SetRootIntegration(branch: string) | CloseRootIntegration
    | StartPeriod(p: Periods.Period, day: int) | EndPeriod(rolled: bool)
    | FinishRollup(own: string)

  datatype EnvStep =
    | GitHubChanges(gh: PullRequest) | BranchesChange(branches: map<string, Sha>)
    | CloneFetches | CloneChanges(locals: map<string, Sha>, tree: Sha)
    | OrchestratorCrash | RemoteCrash

  datatype Action =
    | ByTick(tick: TickStep) | ByWorker(worker: WorkerStep) | ByReviewer(review: ReviewStep)
    | ByCall(id: int, call: CallStep) | ByLead(lead: LeadStep) | ByEnv(env: EnvStep)

  // --- branches and the clone --------------------------------------------------------------------

  function Tip(branches: map<string, Sha>, name: string): Option<Sha> {
    if name in branches then Some(branches[name]) else None
  }

  /** The commits of `tip` that `head` lacks. */
  function Lacking(rules: Rules, head: Sha, tip: Option<Sha>): set<Sha> {
    if tip.Some? then rules.history(tip.value) - rules.history(head) else {}
  }

  /** How far the pull request really is behind its base. */
  function Behind(rules: Rules, w: World): nat {
    |Lacking(rules, w.gh.head, Tip(w.branches, w.gh.base))|
  }

  /** What the clone takes a branch for: as fetched, or else its own of that name. */
  function BaseRef(c: Clone, base: string): Option<Sha> {
    if base in c.fetched then Some(c.fetched[base]) else Tip(c.locals, base)
  }

  /** How far the worktree is behind a branch as the clone knows it. */
  function BehindRef(rules: Rules, c: Clone, base: string): Option<nat> {
    if BaseRef(c, base).Some? then Some(|Lacking(rules, c.tree, BaseRef(c, base))|) else None
  }

  /** The commit a merge of `ref` into `tree` ends at: a merge commit, or one of the two. */
  ghost predicate MergesTo(rules: Rules, tree: Sha, ref: Sha, merge: Sha) {
    rules.history(merge) == rules.history(tree) + rules.history(ref) + {merge}
  }

  // --- moving the row ----------------------------------------------------------------------------

  predicate AttemptsLeft(rules: Rules, row: IssueRow) {
    Reconciliation.AttemptsRemaining(row, rules.policy.maxRepairs)
  }

  /** A state change decided on an older look at the row: it happens if the lifecycle allows it from the state on
      disk, and is refused (an exception that ends the step) otherwise. */
  function Try(w: World, to: State): World {
    if Allowed(w.row.state, to) then w.(row := w.row.(state := to)) else w
  }

  function TryWith(w: World, to: State, validated: Option<Sha>): World {
    if Allowed(w.row.state, to) then w.(row := w.row.(state := to, validated := validated)) else w
  }

  /** The orchestrator sends the Issue into another run, having seen `seen` attempts. */
  function Dispatch(w: World, seen: nat, to: State, validated: Option<Sha>): World {
    if Allowed(w.row.state, to)
    then w.(row := w.row.(state := to, validated := validated), late := w.late + if w.row.attempt > seen then 1 else 0)
    else w
  }

  /** Somebody orders a further run. */
  function Ordered(w: World, to: State, validated: Option<Sha>): World {
    if Allowed(w.row.state, to) then w.(row := w.row.(state := to, validated := validated), credits := w.credits + 1)
    else w
  }

  function OneLess(n: nat): nat {
    if n > 0 then n - 1 else 0
  }

  // --- the tick ----------------------------------------------------------------------------------

  /** The gates the tick demands before it leaves REVIEW forwards, on the row it listed. */
  predicate GatesGreen(rules: Rules, row: IssueRow, ev: CiEvidence, lost: bool) {
    && row.state == REVIEW && row.validated == Some(ev.head)
    && row.verdict == Some(Verdict(APPROVE, Some(ev.head)))
    && Approved(row, Some(ev), rules.policy, row.verdict.value.sha, lost, false)
  }

  /** The integration branch a fully validated pull request joins, if any: its ROOT's, the period's, or the pending
      rollup's when it still targets that one. A rollup joins none. */
  function JoinedBranch(w: World, row: IssueRow, base: string): Option<string> {
    if row.kind == Rollup then None
    else if w.rootBranch.Some? then w.rootBranch
    else if w.period.Some? then Some(w.period.value.branch)
    else if StartsWith(base, "integration/") && w.rollup == Some(base) then w.rollup
    else None
  }

  ghost predicate PassesReview(rules: Rules, w: World, ev: CiEvidence, lost: bool) {
    w.tick.SawPr? && GatesGreen(rules, w.tick.row, ev, lost) && ev.head == w.tick.pr.head
  }

  function NextClaim(rules: Rules, w: World, s: TickStep): World {
    match s
    case Claim =>
      if w.tick.Idle? && w.worker.NoWorker? && w.row.kind != Rollup && w.row.state == QUEUED
      then w.(row := w.row.(state := CLAIMED), tick := Claiming(w.row.attempt)) else w
    case SpawnWorker => if w.tick.Claiming? && w.worker.NoWorker? then w.(tick := Idle, worker := Spawned(false)) else w
    case Unclaim => if w.tick.Claiming? then Dispatch(w.(tick := Idle), w.tick.seen, QUEUED, w.row.validated) else w
    case AdoptPr => if w.tick.Claiming? then Try(w.(tick := Idle), PR_OPEN) else w
    case RequeueUnclaimed =>
      if w.tick.Took? && w.tick.row.state == CLAIMED && w.worker.NoWorker?
      then Dispatch(w.(tick := Idle), w.tick.row.attempt, QUEUED, w.row.validated) else w
    case RequeueLost =>
      if !(w.tick.Took? && w.tick.row.state == WORKING && w.worker.NoWorker?) then w
      else if AttemptsLeft(rules, w.tick.row)
      then Dispatch(w.(tick := Idle), w.tick.row.attempt, QUEUED, w.row.validated)
      else Try(w.(tick := Idle), BLOCKED)
    case SpawnFixer =>
      if w.tick.Took? && w.tick.row.state == FIX_REQUIRED && w.worker.NoWorker?
      then w.(tick := Idle, worker := Spawned(true)) else w
    case _ => w
  }

  function NextAdvance(rules: Rules, w: World, s: TickStep): World {
    match s
    case EnterCi => if w.tick.Took? && w.tick.row.state == PR_OPEN then Try(w.(tick := Idle), CI) else w
    case SeeGreen(ev) =>
      if w.tick.SawPr? && w.tick.row.state == CI && ev.head == w.tick.pr.head && ev.status == SUCCESS
      then w.(row := w.row.(validated := Some(ev.head)), ciSeen := w.ciSeen + {ev.head}, tick := SawGreen(ev.head))
      else w
    case EnterReview => if w.tick.SawGreen? then Try(w.(tick := Idle), REVIEW) else w
    case HeadMoved =>
      if w.tick.SawPr? && w.tick.row.state == REVIEW && w.tick.row.validated != Some(w.tick.pr.head)
      then TryWith(w.(tick := Idle), CI, None) else w
    case DispatchFixer(clear) =>
      if w.tick.SawPr? && w.tick.row.state in {CI, READY_FOR_OWNER} && AttemptsLeft(rules, w.tick.row) then
        Dispatch(w.(tick := Idle), w.tick.row.attempt, FIX_REQUIRED, if clear then None else w.row.validated)
      else w
    case DispatchParked =>
      if && w.tick.SawPr? && w.tick.row.state == REVIEW && w.tick.row.kind != Rollup && AttemptsLeft(rules, w.tick.row)
         && w.tick.row.verdict.Some? && w.tick.row.verdict.value.kind != APPROVE
         && w.tick.row.verdict.value.sha == Some(w.tick.pr.head)
      then Dispatch(w.(tick := Idle), w.tick.row.attempt, FIX_REQUIRED, w.row.validated) else w
    case StartReview =>
      if && w.tick.SawPr? && w.tick.row.state == REVIEW && w.tick.row.validated == Some(w.tick.pr.head)
          && w.reviewer.NoReviewer?
         && (w.tick.row.verdict.None? || w.tick.row.verdict.value.sha != Some(w.tick.pr.head))
      then w.(reviewer := Reading(w.tick.pr.head), tick := Idle) else w
    case InvalidateReadiness =>
      if w.tick.Pushed? || (w.tick.SawPr? && w.tick.row.state == READY_FOR_OWNER
          && w.tick.row.validated != Some(w.tick.pr.head))
      then TryWith(w.(tick := Idle), CI, None) else w
    case _ => w
  }

  /** An advanced base is merged in the worktree and pushed, then the readiness is taken back. A push that fails (it
      has to be a fast-forward) is an exception that ends the tick's step, after the merge. */
  ghost function NextUpdate(rules: Rules, w: World, s: TickStep): World {
    match s
    case FindBehind =>
      if !(w.tick.SawPr? && w.tick.row.state == READY_FOR_OWNER && w.tick.row.validated == Some(w.tick.pr.head)) then w
      else
        var behind := BehindRef(rules, w.clone, w.tick.pr.base);
        if behind.Some? && behind.value > 0 then w.(tick := Outdated(w.tick.row, w.tick.pr.base)) else w.(tick := Idle)
    case MergeBase(merge) =>
      if !w.tick.Outdated? then w
      else
        var ref := BaseRef(w.clone, w.tick.base);
        if ref.Some? && MergesTo(rules, w.clone.tree, ref.value, merge)
        then w.(clone := w.clone.(tree := merge), tick := Updated(w.tick.row)) else w
    case PushTree =>
      if w.tick.Updated? && rules.history(w.gh.head) <= rules.history(w.clone.tree)
      then w.(gh := w.gh.(head := w.clone.tree), tick := Pushed(w.tick.row)) else w
    case _ => w
  }

  ghost function NextPassed(rules: Rules, w: World, s: TickStep): World {
    match s
    case BecomeReady(ev, lost) =>
      if PassesReview(rules, w, ev, lost) && JoinedBranch(w, w.tick.row, w.tick.pr.base).None?
      then Try(w.(tick := Idle), READY_FOR_OWNER) else w
    case Retarget(ev, lost) =>
      if PassesReview(rules, w, ev, lost) && JoinedBranch(w, w.tick.row, w.tick.pr.base).Some? then
        var branch := JoinedBranch(w, w.tick.row, w.tick.pr.base).value;
        w.(gh := w.gh.(base := branch), tick := Retargeted(w.tick.row, ev, lost, branch))
      else w
    case MergeIntoBranch(mergeSha) =>
      if !w.tick.Retargeted? then w
      else if w.gh.merged || w.gh.head != w.tick.ev.head then Try(w.(tick := Idle), BLOCKED)
      else
        var m := BranchMerge(w.tick.ev.head, w.gh.head, w.tick.row, w.tick.ev, w.tick.lost, w.tick.branch, w.gh.base);
        w.(gh := w.gh.(merged := true), merges := w.merges + [m], tick := MergedIntoBranch(mergeSha))
    case RecordIntegration =>
      if w.tick.MergedIntoBranch? then TryWith(w.(tick := Idle, smoking := true), INTEGRATED, Some(w.tick.mergeSha))
      else w
    case _ => w
  }

  // A pull request found merged is audited first, a bypass is reported, then the merge is recorded.

  function AuditFound(rules: Rules, w: World, ev: Option<CiEvidence>, found: Option<Sha>): World {
    if w.tick.SawPr? && w.tick.pr.merged && w.tick.row.state in Reconciliation.PR_STATES
        && (ev.Some? ==> ev.value.head == w.tick.pr.head) then
      var bypass := ev.None? || !ContextsGreen(ev.value, ProtectedContexts(rules.policy));
      var i := |w.audits|;
      w.(audits := w.audits + [Audit(w.tick.pr.head, ev, bypass, false, None)],
         tick := if bypass then Auditing(w.tick.row, w.tick.pr, found, i) else Audited(w.tick.row, w.tick.pr, found, i))
    else w
  }

  function ReportFound(w: World): World {
    if w.tick.Auditing? && w.tick.audit < |w.audits|
    then w.(audits := w.audits[w.tick.audit := w.audits[w.tick.audit].(admin := true)],
            tick := Audited(w.tick.row, w.tick.pr, w.tick.found, w.tick.audit)) else w
  }

  function RecordFound(w: World, reconciling: bool): World {
    if !w.tick.Audited? then w
    else if w.tick.row.state != READY_FOR_OWNER then Try(w.(tick := Idle), BLOCKED)
    else if !reconciling && w.rootBranch == Some(w.tick.pr.base)
    then TryWith(w.(tick := Idle, smoking := true), INTEGRATED, w.tick.found)
    else if Allowed(w.row.state, MERGED) then
      TryWith(w.(tick := Idle, entries := w.entries + [FoundMerged(w.tick.audit)]), MERGED, w.tick.found)
    else w.(tick := Idle)
  }

  function NextFound(rules: Rules, w: World, s: TickStep): World {
    match s
    case AuditFoundMerge(ev, found) => AuditFound(rules, w, ev, found)
    case RecordBypass => ReportFound(w)
    case RecordFoundMerge(reconciling) => RecordFound(w, reconciling)
    case _ => w
  }

  ghost function NextTick(rules: Rules, w: World, s: TickStep): World {
    match s
    case TakeUp => if w.tick.Idle? then w.(tick := Took(w.row)) else w
    case ReadPr => if w.tick.Took? then w.(tick := SawPr(w.tick.row, w.gh)) else w
    case LetGo => w.(tick := Idle)
    case BlockIt => if w.tick.Idle? then w else Try(w.(tick := Idle), BLOCKED)
    case _ =>
      if s.Claim? || s.SpawnWorker? || s.Unclaim? || s.AdoptPr? || s.RequeueUnclaimed? || s.RequeueLost?
          || s.SpawnFixer? then NextClaim(rules, w, s)
      else if s.BecomeReady? || s.Retarget? || s.MergeIntoBranch? || s.RecordIntegration? then NextPassed(rules, w, s)
      else if s.AuditFoundMerge? || s.RecordBypass? || s.RecordFoundMerge? then NextFound(rules, w, s)
      else if s.FindBehind? || s.MergeBase? || s.PushTree? then NextUpdate(rules, w, s)
      else NextAdvance(rules, w, s)
  }

  // --- the worker and the reviewer ---------------------------------------------------------------

  function NextWorker(rules: Rules, w: World, s: WorkerStep): World {
    match s
    case ReadForRun => if w.worker.Spawned? then w.(worker := Starting(w.worker.repair, w.row.attempt)) else w
    case StartRun =>
      if !w.worker.Starting? then w
      else if w.row.state == if w.worker.repair then FIX_REQUIRED else CLAIMED
      then w.(row := w.row.(state := WORKING, attempt := w.worker.seen + 1), worker := Running)
      else w.(worker := NoWorker)
    case EndRun =>
      if w.worker.Running? then w.(worker := if w.row.state == WORKING then Completing(w.row) else NoWorker) else w
    case GiveBack =>
      if w.worker.Completing? then w.(row := w.row.(attempt := OneLess(w.worker.row.attempt)), worker := GivenBack)
      else w
    case RequeueRateLimited => if w.worker.GivenBack? then Try(w.(worker := NoWorker), QUEUED) else w
    case RereadFailed => if w.worker.Completing? then w.(worker := Failing(w.row)) else w
    case SettleFailed =>
      if !w.worker.Failing? then w
      else if AttemptsLeft(rules, w.worker.row) && w.worker.row.kind != Rollup
      then Dispatch(w.(worker := NoWorker), w.worker.row.attempt, QUEUED, w.row.validated)
      else Try(w.(worker := NoWorker), BLOCKED)
    case ReportBlocked => if w.worker.Completing? then Try(w.(worker := NoWorker), BLOCKED) else w
    case FinishRun => if w.worker.Completing? then TryWith(w.(worker := NoWorker), PR_OPEN, None) else w
  }

  function NextReviewer(rules: Rules, w: World, s: ReviewStep): World {
    match s
    case ReadReview =>
      if w.reviewer.Reading?
      then w.(reviewer := if w.row.state == REVIEW then Read(w.reviewer.head, w.row) else NoReviewer) else w
    case WriteVerdict(kind) =>
      if w.reviewer.Read? then
        w.(row := w.row.(verdict := Some(Verdict(kind, Some(w.reviewer.head)))),
            reviewed := w.reviewed + {(kind, w.reviewer.head)},
           reviewer := Wrote(w.reviewer.head, w.reviewer.row, kind))
      else w
    case Settle =>
      if !w.reviewer.Wrote? then w
      else if w.reviewer.kind == APPROVE then w.(reviewer := NoReviewer)
      else if AttemptsLeft(rules, w.reviewer.row) && w.reviewer.row.kind != Rollup
      then Dispatch(w.(reviewer := NoReviewer), w.reviewer.row.attempt, FIX_REQUIRED, w.row.validated)
      else Try(w.(reviewer := NoReviewer), BLOCKED)
    case ReviewOver => w.(reviewer := NoReviewer)
  }

  // --- the owner's merge -------------------------------------------------------------------------

  function Drop(w: World, id: int): World {
    w.(calls := w.calls - {id})
  }

  function NextCall(rules: Rules, w: World, id: int, s: CallStep): World {
    match s
    case CallBegin(requested) =>
      if id !in w.calls && w.row.state == READY_FOR_OWNER && w.row.validated.Some? && requested != ""
          && StartsWith(w.row.validated.value, requested)
      then w.(calls := w.calls[id := Checked(w.row)]) else w
    case CallHead =>
      if !(id in w.calls && w.calls[id].Checked?) then w
      else if w.gh.merged then Drop(w, id)
      else if w.calls[id].row.validated != Some(w.gh.head) then TryWith(Drop(w, id), CI, None)
      else w.(calls := w.calls[id := SawHead(w.calls[id].row, w.gh.head, w.gh.base)])
    case CallRefresh(lost) =>
      if id in w.calls && w.calls[id].SawHead?
      then w.(calls := w.calls[id := ReRead(w.row, w.calls[id].head, w.calls[id].base, lost)])
      else w
    case CallDecide(ev) =>
      if !(id in w.calls && w.calls[id].ReRead? && ev.head == w.calls[id].head) then w
      else
        var c := w.calls[id];
        var sha := if c.row.verdict.Some? then c.row.verdict.value.sha else None;
        if Approved(c.row, Some(ev), rules.policy, sha, c.lost, true)
        then w.(calls := w.calls[id := Decided(c.row, c.head, c.base, c.lost, ev)]) else Drop(w, id)
    case CallFetch(ok) =>
      if !(id in w.calls && w.calls[id].Decided?) then w
      else
        var c := w.calls[id];
        w.(calls := w.calls[id := Fetched(c.row, c.head, c.base, c.lost, c.ev)],
           clone := if ok then w.clone.(fetched := w.branches) else w.clone)
    case CallBase(readable) =>
      // the worktree's HEAD is compared with what the clone takes the base for; an error counts as not behind
      if !(id in w.calls && w.calls[id].Fetched?) then w
      else
        var c := w.calls[id];
        var read := if readable then BehindRef(rules, w.clone, c.base) else None;
        if read.Some? && read.value > 0 then Drop(w, id)
        else w.(calls := w.calls[id := BaseRead(c.row, c.head, c.base, c.lost, c.ev, read)])
    case CallRefuse =>
      if id in w.calls && !w.calls[id].MergedOnGitHub? && !w.calls[id].Recorded? then Drop(w, id) else w
    case CallMerge(mergeSha) =>
      if !(id in w.calls && w.calls[id].BaseRead?) then w
      else if w.gh.merged || w.gh.head != w.calls[id].head then Drop(w, id)
      else
        var c := w.calls[id];
        var m := OwnerMerge(c.head, w.gh.head, c.row, c.ev, c.lost, c.base, c.behind, w.gh.base, Behind(rules, w));
        w.(gh := w.gh.(merged := true), merges := w.merges + [m], calls := w.calls[id := MergedOnGitHub(m, mergeSha)])
    case CallRecord =>
      if !(id in w.calls && w.calls[id].MergedOnGitHub?) then w
      else if Allowed(w.row.state, MERGED) then
        TryWith(w.(calls := w.calls[id := Recorded(|w.entries|)], entries := w.entries + [ByOwner(w.calls[id].merge)]),
            MERGED, Some(w.calls[id].mergeSha))
      else Drop(w, id)
    case CallAudit =>
      if id in w.calls && w.calls[id].Recorded? && w.calls[id].entry < |w.entries|
          && w.entries[w.calls[id].entry].ByOwner? then
        var m := w.entries[w.calls[id].entry].merge;
        Drop(w.(audits := w.audits + [Audit(m.sha, Some(m.ev), false, false, Some(w.calls[id].entry))]), id)
      else w
  }

  // --- owner, lead, smoke, periods, the outside --------------------------------------------------

  function NextOrder(w: World, s: LeadStep): World {
    match s
    case RefreshContract(risk) => w.(row := w.row.(risk := risk))
    case RecordApproval(name) => w.(row := w.row.(approvals := w.row.approvals + {name}))
    case BlockIssue => Try(w, BLOCKED)
    case Finish => Try(w, DONE)
    case AskChange => if w.row.state in {READY_FOR_OWNER, BLOCKED} then w.(asked := w.asked + 1) else w
    case ChangeRequest =>
      if w.asked == 0 then w
      else if w.row.kind == Rollup then Try(w.(asked := w.asked - 1), BLOCKED)
      else Ordered(w.(asked := w.asked - 1), FIX_REQUIRED, w.row.validated)
    case ReadForRequeue => w.(leadSeen := Some(w.row.attempt))
    case Requeue(reset) =>
      if w.leadSeen.None? then w
      else if w.row.state != BLOCKED then w.(leadSeen := None)
      else w.(leadSeen := None, credits := w.credits + 1,
              row := w.row.(state := QUEUED, attempt := if reset then 0 else w.leadSeen.value))
    case OrderRepair => if w.row.state == BLOCKED then Ordered(w, FIX_REQUIRED, w.row.validated) else w
    case ClearVerdict => w.(row := w.row.(verdict := None))
    case Resume => if w.row.state == BLOCKED then TryWith(w, PR_OPEN, None) else w
    case AdoptIntegration(sha) =>
      if w.gh.merged && w.rootBranch == Some(w.gh.base) then TryWith(w.(smoking := true), INTEGRATED, Some(sha)) else w
    case SmokePassed => w.(smoking := false)
    case SmokeReverted => if w.smoking then Ordered(w.(smoking := false), FIX_REQUIRED, None) else w
    case _ => w
  }

  /** Integration branches come and go. Finishing a rollup moves the open pull requests off its branch. */
  ghost function NextBranches(rules: Rules, w: World, s: LeadStep): World {
    match s
    case SetRootIntegration(branch) => if StartsWith(branch, "integration/") then w.(rootBranch := Some(branch)) else w
    case CloseRootIntegration => w.(rootBranch := None)
    case StartPeriod(p, day) => if Periods.IsPeriodAround(rules.cal, p, day) then w.(period := Some(p)) else w
    case EndPeriod(rolled) =>
      if w.period.Some? then w.(period := None, rollup := if rolled then Some(w.period.value.branch) else w.rollup)
      else w
    case FinishRollup(own) =>
      var branch := if w.rollup.Some? then w.rollup.value else own;
      w.(rollup := None, gh := if w.gh.base == branch && !w.gh.merged then w.gh.(base := "main") else w.gh)
    case _ => w
  }

  predicate OnBranches(s: LeadStep) {
    s.SetRootIntegration? || s.CloseRootIntegration? || s.StartPeriod? || s.EndPeriod? || s.FinishRollup?
  }

  /** A merge is for good; everything else on GitHub may change at any time. So may the clone, where other threads and
      people fetch, commit, merge and check out; what it has fetched of a branch is what GitHub had then. */
  function NextEnv(w: World, s: EnvStep): World {
    match s
    case GitHubChanges(gh) => w.(gh := gh.(merged := gh.merged || w.gh.merged))
    case BranchesChange(branches) => w.(branches := branches)
    case CloneFetches => w.(clone := w.clone.(fetched := w.branches))
    case CloneChanges(locals, tree) => w.(clone := w.clone.(locals := locals, tree := tree))
    case OrchestratorCrash => w.(tick := Idle, worker := NoWorker, reviewer := NoReviewer, smoking := false)
    case RemoteCrash => w.(calls := map[], asked := 0)
  }

  ghost function Next(rules: Rules, w: World, a: Action): World {
    match a
    case ByTick(s) => NextTick(rules, w, s)
    case ByWorker(s) => NextWorker(rules, w, s)
    case ByReviewer(s) => NextReviewer(rules, w, s)
    case ByCall(id, s) => NextCall(rules, w, id, s)
    case ByLead(s) => if OnBranches(s) then NextBranches(rules, w, s) else NextOrder(w, s)
    case ByEnv(s) => NextEnv(w, s)
  }

  ghost function RunOf(rules: Rules, w: World, actions: seq<Action>): World
    decreases actions
  {
    if actions == [] then w else RunOf(rules, Next(rules, w, actions[0]), actions[1..])
  }

  /** An Issue as it is first tracked: a ROOT or a child waiting, or held back, without attempts; a rollup with its
      pull request already open. Nothing else has happened yet. */
  ghost predicate Initial(w: World) {
    && (if w.row.kind == Rollup then w.row.state == PR_OPEN else w.row.state in {QUEUED, BLOCKED})
    && w.row.attempt == 0 && w.row.verdict.None? && w.row.validated.None?
    && w.tick.Idle? && w.worker.NoWorker? && w.reviewer.NoReviewer? && !w.smoking
    && w.calls == map[] && w.asked == 0 && w.leadSeen.None?
    && w.rootBranch.None? && w.period.None? && w.rollup.None?
    && w.ciSeen == {} && w.reviewed == {} && w.credits == 0 && w.late == 0
    && w.merges == [] && w.audits == [] && w.entries == []
  }

  lemma {:induction false} RunConcat(rules: Rules, w: World, a: seq<Action>, b: seq<Action>)
    ensures RunOf(rules, w, a + b) == RunOf(rules, RunOf(rules, w, a), b)
    decreases a
  {
    hide Next;
    if a == [] {
      assert a + b == b;
    } else {
      assert (a + b)[1..] == a[1..] + b;
      RunConcat(rules, Next(rules, w, a[0]), a[1..], b);
    }
  }

  lemma RunSnoc(rules: Rules, w: World, a: seq<Action>, b: Action)
    ensures RunOf(rules, w, a + [b]) == Next(rules, RunOf(rules, w, a), b)
  {
    hide Next;
    RunConcat(rules, w, a, [b]);
    assert [b][1..] == [];
  }
}
