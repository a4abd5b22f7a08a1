/** Stretches of a run that several results use, and where they lead. */
module ProtocolRuns {
  import opened Prelude
  import opened Lifecycle
  import opened StateStore
  import opened MergePolicy
  import opened MergeProtocol

  /** From an open pull request through green gates into REVIEW. */
  function ToReview(ev: CiEvidence): seq<Action> {
    [ByTick(TakeUp), ByTick(EnterCi), ByTick(TakeUp), ByTick(ReadPr), ByTick(SeeGreen(ev)), ByTick(EnterReview)]
  }

  /** A reviewer reads the head and stores its verdict. */
  function ToVerdict(kind: VerdictKind): seq<Action> {
    [ByTick(TakeUp), ByTick(ReadPr), ByTick(StartReview), ByReviewer(ReadReview), ByReviewer(WriteVerdict(kind))]
  }

  lemma Run5(rules: Rules, w: World, a: Action, b: Action, c: Action, d: Action, e: Action)
    ensures RunOf(rules, w, [a, b, c, d, e]) ==
        Next(rules, Next(rules, Next(rules, Next(rules, Next(rules, w, a), b), c), d), e)
  {
    hide Next;
    assert [a, b, c, d, e] == [a, b, c, d] + [e] && [a, b, c, d] == [a, b, c] + [d] && [a, b, c] == [a, b] + [c];
    assert [a, b] == [a] + [b];
    RunSnoc(rules, w, [a, b, c, d], e);
    RunSnoc(rules, w, [a, b, c], d);
    RunSnoc(rules, w, [a, b], c);
    RunSnoc(rules, w, [a], b);
    RunSnoc(rules, w, [], a);
    assert [] + [a] == [a];
  }

  lemma Run6(rules: Rules, w: World, a: Action, b: Action, c: Action, d: Action, e: Action, f: Action)
    ensures RunOf(rules, w, [a, b, c, d, e, f]) ==
        Next(rules, Next(rules, Next(rules, Next(rules, Next(rules, Next(rules, w, a), b), c), d), e), f)
  {
    hide Next;
    assert [a, b, c, d, e, f] == [a, b, c, d, e] + [f];
    RunSnoc(rules, w, [a, b, c, d, e], f);
    Run5(rules, w, a, b, c, d, e);
  }

  // Single steps, where their conditions are met.

  lemma TakeUpStep(rules: Rules, w: World)
    requires w.tick.Idle?
    ensures Next(rules, w, ByTick(TakeUp)) == w.(tick := Took(w.row))
  {
    hide NextClaim, NextAdvance, NextUpdate, NextPassed, NextFound;
  }

  lemma ReadPrStep(rules: Rules, w: World)
    requires w.tick.Took?
    ensures Next(rules, w, ByTick(ReadPr)) == w.(tick := SawPr(w.tick.row, w.gh))
  {
    hide NextClaim, NextAdvance, NextUpdate, NextPassed, NextFound;
  }

  lemma AdvanceStep(rules: Rules, w: World, s: TickStep)
    requires s.EnterCi? || s.SeeGreen? || s.EnterReview? || s.StartReview? || s.DispatchFixer? || s.DispatchParked?
    ensures Next(rules, w, ByTick(s)) == NextAdvance(rules, w, s)
  {
    hide NextClaim, NextAdvance, NextUpdate, NextPassed, NextFound;
  }

  lemma UpdateStep(rules: Rules, w: World, s: TickStep)
    requires s.FindBehind? || s.MergeBase? || s.PushTree?
    ensures Next(rules, w, ByTick(s)) == NextUpdate(rules, w, s)
  {
    hide NextClaim, NextAdvance, NextUpdate, NextPassed, NextFound;
  }

  lemma ClaimStep(rules: Rules, w: World, s: TickStep)
    requires s.Claim? || s.SpawnWorker? || s.SpawnFixer?
    ensures Next(rules, w, ByTick(s)) == NextClaim(rules, w, s)
  {
    hide NextClaim, NextAdvance, NextUpdate, NextPassed, NextFound;
  }

  lemma WorkerStepRuns(rules: Rules, w: World, s: WorkerStep)
    ensures Next(rules, w, ByWorker(s)) == NextWorker(rules, w, s)
  {
    hide NextTick, NextWorker;
  }

  lemma ReviewStepRuns(rules: Rules, w: World, s: ReviewStep)
    ensures Next(rules, w, ByReviewer(s)) == NextReviewer(rules, w, s)
  {
    hide NextTick, NextReviewer;
  }

  lemma ToReviewRuns(rules: Rules, w: World, ev: CiEvidence)
    requires w.row.state == PR_OPEN && w.tick.Idle? && ev.head == w.gh.head && ev.status == SUCCESS
    ensures RunOf(rules, w, ToReview(ev)) ==
        w.(row := w.row.(state := REVIEW, validated := Some(ev.head)), ciSeen := w.ciSeen + {ev.head})
  {
    hide Next;
    Run6(rules, w, ByTick(TakeUp), ByTick(EnterCi), ByTick(TakeUp), ByTick(ReadPr), ByTick(SeeGreen(ev)),
        ByTick(EnterReview));
    TakeUpStep(rules, w);
    AdvanceStep(rules, w.(tick := Took(w.row)), EnterCi);
    var w2 := w.(row := w.row.(state := CI));
    TakeUpStep(rules, w2);
    ReadPrStep(rules, w2.(tick := Took(w2.row)));
    AdvanceStep(rules, w2.(tick := SawPr(w2.row, w.gh)), SeeGreen(ev));
    var w3 := w2.(row := w2.row.(validated := Some(ev.head)), ciSeen := w.ciSeen + {ev.head},
        tick := SawGreen(ev.head));
    AdvanceStep(rules, w3, EnterReview);
  }

  lemma ToVerdictRuns(rules: Rules, w: World, kind: VerdictKind)
    requires w.row.state == REVIEW && w.row.validated == Some(w.gh.head) && w.row.verdict.None? && w.tick.Idle?
    requires w.reviewer.NoReviewer?
    ensures RunOf(rules, w, ToVerdict(kind)) ==
            w.(row := w.row.(verdict := Some(Verdict(kind, Some(w.gh.head)))),
                reviewed := w.reviewed + {(kind, w.gh.head)},
               reviewer := Wrote(w.gh.head, w.row, kind))
  {
    hide Next, AttemptsLeft, Allowed;
    Run5(rules, w, ByTick(TakeUp), ByTick(ReadPr), ByTick(StartReview), ByReviewer(ReadReview),
        ByReviewer(WriteVerdict(kind)));
    TakeUpStep(rules, w);
    ReadPrStep(rules, w.(tick := Took(w.row)));
    AdvanceStep(rules, w.(tick := SawPr(w.row, w.gh)), StartReview);
    ReviewStepRuns(rules, w.(reviewer := Reading(w.gh.head)), ReadReview);
    ReviewStepRuns(rules, w.(reviewer := Read(w.gh.head, w.row)), WriteVerdict(kind));
  }

  /** A first run, up to its end. */
  const CLAIM_AND_RUN: seq<Action> :=
      [ByTick(Claim), ByTick(SpawnWorker), ByWorker(ReadForRun), ByWorker(StartRun), ByWorker(EndRun)]

  /** A fresh Issue with nothing going on. */
  ghost predicate Waiting(w: World) {
    w.row.state == QUEUED && w.row.kind != Rollup && w.tick.Idle? && w.worker.NoWorker? && w.reviewer.NoReviewer?
  }

  lemma ClaimAndSpawn(rules: Rules, w: World)
    requires Waiting(w)
    ensures Next(rules, Next(rules, w, ByTick(Claim)), ByTick(SpawnWorker)) ==
        w.(row := w.row.(state := CLAIMED), worker := Spawned(false))
  {
    hide Next, AttemptsLeft;
    ClaimStep(rules, w, Claim);
    ClaimStep(rules, w.(row := w.row.(state := CLAIMED), tick := Claiming(w.row.attempt)), SpawnWorker);
  }

  /** A worker thread starts its run and comes to its end. */
  lemma WorkerRuns(rules: Rules, w: World)
    requires w.worker.Spawned? && w.row.state == if w.worker.repair then FIX_REQUIRED else CLAIMED
    ensures var row := w.row.(state := WORKING, attempt := w.row.attempt + 1);
            && Next(rules, Next(rules, w, ByWorker(ReadForRun)), ByWorker(StartRun)) ==
                  w.(row := row, worker := Running)
            && Next(rules, w.(row := row, worker := Running), ByWorker(EndRun)) ==
                  w.(row := row, worker := Completing(row))
  {
    hide Next, AttemptsLeft;
    WorkerStepRuns(rules, w, ReadForRun);
    WorkerStepRuns(rules, w.(worker := Starting(w.worker.repair, w.row.attempt)), StartRun);
    WorkerStepRuns(rules, w.(row := w.row.(state := WORKING, attempt := w.row.attempt + 1), worker := Running), EndRun);
  }

  lemma ClaimAndRunRuns(rules: Rules, w: World)
    requires Waiting(w)
    ensures var row := w.row.(state := WORKING, attempt := w.row.attempt + 1);
            RunOf(rules, w, CLAIM_AND_RUN) == w.(row := row, worker := Completing(row))
  {
    hide Next;
    Run5(rules, w, ByTick(Claim), ByTick(SpawnWorker), ByWorker(ReadForRun), ByWorker(StartRun), ByWorker(EndRun));
    ClaimAndSpawn(rules, w);
    WorkerRuns(rules, w.(row := w.row.(state := CLAIMED), worker := Spawned(false)));
  }

  lemma FinishRuns(rules: Rules, w: World)
    requires w.worker.Completing? && w.row.state == WORKING
    ensures Next(rules, w, ByWorker(FinishRun)) ==
        w.(worker := NoWorker, row := w.row.(state := PR_OPEN, validated := None))
  {
  }

  /** The requirements are CI and an independent review, nothing else. */
  ghost predicate PlainPolicy(policy: Policy, risk: Risk) {
    forall r :: r in RequiredFor(policy, risk) ==> r.CiGreen? || r.ReviewerGreen?
  }

  lemma PlainApproval(policy: Policy, row: IssueRow, ev: CiEvidence, githubGates: bool)
    requires PlainPolicy(policy, row.risk) && ev.status == SUCCESS
    requires row.verdict == Some(Verdict(APPROVE, Some(ev.head)))
    requires githubGates ==> ContextsGreen(ev, ProtectedContexts(policy))
    ensures Approved(row, Some(ev), policy, Some(ev.head), false, githubGates)
  {
    hide ContextsGreen, ProtectedContexts, RequiredFor;
  }

  // --- the owner's merge -------------------------------------------------------------------------

  lemma NextIsCall(rules: Rules, w: World, id: int, s: CallStep)
    ensures Next(rules, w, ByCall(id, s)) == NextCall(rules, w, id, s)
  {
    hide NextCall;
  }

  /** A rollup as it is first tracked, with green gates, for which the owner need not be asked anything else. */
  ghost predicate GreenRollup(rules: Rules, w: World, ev: CiEvidence) {
    && w.row.kind == Rollup && PlainPolicy(rules.policy, w.row.risk)
    && w.gh.head == ev.head != "" && !w.gh.merged && ev.status == SUCCESS
    && ContextsGreen(ev, ProtectedContexts(rules.policy))
  }

  const BECOME_REVIEWED: seq<Action> := [ByReviewer(Settle), ByTick(TakeUp), ByTick(ReadPr)]

  /** It is validated, reviewed and announced. */
  function ToReady(ev: CiEvidence): seq<Action> {
    ToReview(ev) + ToVerdict(APPROVE) + BECOME_REVIEWED + [ByTick(BecomeReady(ev, false))]
  }

  /** The owner's call decides to merge it. */
  function ToDecision(ev: CiEvidence): seq<Action> {
    [ByCall(0, CallBegin(ev.head)), ByCall(0, CallHead), ByCall(0, CallRefresh(false)), ByCall(0, CallDecide(ev))]
  }

  /** It fetches, or fails to, reads the base, or cannot, and merges. */
  function ToMerge(fetches: bool, readable: bool, mergeSha: Sha): seq<Action> {
    [ByCall(0, CallFetch(fetches)), ByCall(0, CallBase(readable)), ByCall(0, CallMerge(mergeSha))]
  }

  lemma Run3(rules: Rules, w: World, a: Action, b: Action, c: Action)
    ensures RunOf(rules, w, [a, b, c]) == Next(rules, Next(rules, Next(rules, w, a), b), c)
  {
    hide Next;
    assert [a, b, c] == [a, b] + [c] && [a, b] == [a] + [b] && [] + [a] == [a];
    RunSnoc(rules, w, [a, b], c);
    RunSnoc(rules, w, [a], b);
    RunSnoc(rules, w, [], a);
  }

  lemma Run4(rules: Rules, w: World, a: Action, b: Action, c: Action, d: Action)
    ensures RunOf(rules, w, [a, b, c, d]) == Next(rules, Next(rules, Next(rules, Next(rules, w, a), b), c), d)
  {
    hide Next;
    assert [a, b, c, d] == [a, b, c] + [d];
    RunSnoc(rules, w, [a, b, c], d);
    Run3(rules, w, a, b, c);
  }

  lemma BecomingReadyRuns(rules: Rules, w: World, ev: CiEvidence)
    requires w.row.state == REVIEW && w.row.kind == Rollup && w.row.validated == Some(ev.head)
    requires w.row.verdict == Some(Verdict(APPROVE, Some(ev.head)))
    requires w.reviewer.Wrote? && w.reviewer.kind == APPROVE && w.tick.Idle? && w.gh.head == ev.head
    requires PlainPolicy(rules.policy, w.row.risk) && ev.status == SUCCESS
    ensures RunOf(rules, w, BECOME_REVIEWED + [ByTick(BecomeReady(ev, false))]) ==
            w.(reviewer := NoReviewer, row := w.row.(state := READY_FOR_OWNER))
  {
    hide Next, Approved, AttemptsLeft, PlainPolicy;
    assert BECOME_REVIEWED + [ByTick(BecomeReady(ev, false))] ==
      [ByReviewer(Settle), ByTick(TakeUp), ByTick(ReadPr), ByTick(BecomeReady(ev, false))];
    Run4(rules, w, ByReviewer(Settle), ByTick(TakeUp), ByTick(ReadPr), ByTick(BecomeReady(ev, false)));
    ReviewStepRuns(rules, w, Settle);
    var w1 := w.(reviewer := NoReviewer);
    TakeUpStep(rules, w1);
    ReadPrStep(rules, w1.(tick := Took(w1.row)));
    BecomeReadyStep(rules, w1.(tick := SawPr(w1.row, w1.gh)), ev);
  }

  /** The owner may call. */
  ghost predicate Ready(w: World, ev: CiEvidence) {
    && w.row.state == READY_FOR_OWNER && w.row.validated == Some(ev.head)
    && w.row.verdict == Some(Verdict(APPROVE, Some(ev.head)))
    && w.tick.Idle? && w.calls == map[]
  }

  lemma ReadyRuns(rules: Rules, start: World, ev: CiEvidence)
    requires Initial(start) && GreenRollup(rules, start, ev)
    ensures var w := RunOf(rules, start, ToReady(ev));
            && Ready(w, ev) && GreenRollup(rules, w, ev) && w.gh.head == ev.head && !w.gh.merged
            && w.gh == start.gh && w.branches == start.branches && w.clone == start.clone
            && w.merges == [] && w.audits == [] && w.entries == []
  {
    hide Next, ContextsGreen, ProtectedContexts, PlainPolicy;
    ToReviewRuns(rules, start, ev);
    var w1 := RunOf(rules, start, ToReview(ev));
    ToVerdictRuns(rules, w1, APPROVE);
    RunConcat(rules, start, ToReview(ev), ToVerdict(APPROVE));
    BecomingReadyRuns(rules, RunOf(rules, w1, ToVerdict(APPROVE)), ev);
    var a, b := ToReview(ev) + ToVerdict(APPROVE), BECOME_REVIEWED + [ByTick(BecomeReady(ev, false))];
    RunConcat(rules, start, a, b);
    assert ToReady(ev) == a + b;
  }

  lemma DecisionRuns(rules: Rules, w: World, ev: CiEvidence)
    requires Ready(w, ev) && GreenRollup(rules, w, ev)
    ensures RunOf(rules, w, ToDecision(ev)) == w.(calls := map[0 := Decided(w.row, ev.head, w.gh.base, false, ev)])
  {
    hide Next, ContextsGreen, ProtectedContexts, PlainPolicy;
    Run4(rules, w, ByCall(0, CallBegin(ev.head)), ByCall(0, CallHead), ByCall(0, CallRefresh(false)),
        ByCall(0, CallDecide(ev)));
    NextIsCall(rules, w, 0, CallBegin(ev.head));
    ReadingCall(rules, w.(calls := map[0 := Checked(w.row)]), ev);
  }

  /** What a call reads of the base with the given luck, if it starts on it now. */
  function Counted(rules: Rules, w: World, fetches: bool, readable: bool): Option<nat> {
    if readable then BehindRef(rules, AfterFetch(w, fetches), w.gh.base) else None
  }

  function AfterFetch(w: World, fetches: bool): Clone {
    if fetches then w.clone.(fetched := w.branches) else w.clone
  }

  lemma SameCount(rules: Rules, v: World, w: World, fetches: bool, readable: bool)
    requires v.gh == w.gh && v.branches == w.branches && v.clone == w.clone
    ensures Counted(rules, v, fetches, readable) == Counted(rules, w, fetches, readable)
    ensures Behind(rules, v) == Behind(rules, w)
  {
  }

  lemma MergingRuns(rules: Rules, w: World, row: IssueRow, ev: CiEvidence, fetches: bool, readable: bool,
      mergeSha: Sha)
    requires w.calls == map[0 := Decided(row, ev.head, w.gh.base, false, ev)] && w.gh.head == ev.head && !w.gh.merged
    requires Counted(rules, w, fetches, readable) in {None, Some(0)}
    ensures var m := OwnerMerge(ev.head, ev.head, row, ev, false, w.gh.base, Counted(rules, w, fetches, readable),
                w.gh.base, Behind(rules, w));
            RunOf(rules, w, ToMerge(fetches, readable, mergeSha)) ==
            w.(clone := AfterFetch(w, fetches), gh := w.gh.(merged := true), merges := w.merges + [m],
               calls := map[0 := MergedOnGitHub(m, mergeSha)])
  {
    hide Next, Approved, StartsWith, Allowed, BehindRef, Lacking;
    Run3(rules, w, ByCall(0, CallFetch(fetches)), ByCall(0, CallBase(readable)), ByCall(0, CallMerge(mergeSha)));
    assert forall x, y: Call :: map[0 := x][0 := y] == map[0 := y];
    var w1 := w.(calls := map[0 := Fetched(row, ev.head, w.gh.base, false, ev)], clone := AfterFetch(w, fetches));
    NextIsCall(rules, w, 0, CallFetch(fetches));
    NextIsCall(rules, w1, 0, CallBase(readable));
    var read := Counted(rules, w, fetches, readable);
    NextIsCall(rules, w1.(calls := map[0 := BaseRead(row, ev.head, w.gh.base, false, ev, read)]), 0,
        CallMerge(mergeSha));
  }

  lemma BecomeReadyStep(rules: Rules, w: World, ev: CiEvidence)
    requires w.tick == SawPr(w.row, w.gh) && w.row.state == REVIEW && w.row.kind == Rollup
    requires w.row.validated == Some(ev.head)
    requires w.row.verdict == Some(Verdict(APPROVE, Some(ev.head))) && w.gh.head == ev.head
    requires PlainPolicy(rules.policy, w.row.risk) && ev.status == SUCCESS
    ensures Next(rules, w, ByTick(BecomeReady(ev, false))) == w.(tick := Idle, row := w.row.(state := READY_FOR_OWNER))
  {
    hide NextAdvance, NextUpdate, NextClaim, NextFound, Approved;
    PlainApproval(rules.policy, w.row, ev, false);
  }

  lemma ReadingCall(rules: Rules, w: World, ev: CiEvidence)
    requires w.calls == map[0 := Checked(w.row)] && w.row.validated == Some(ev.head)
    requires w.row.verdict == Some(Verdict(APPROVE, Some(ev.head)))
    requires w.gh.head == ev.head && !w.gh.merged
    requires PlainPolicy(rules.policy, w.row.risk) && ev.status == SUCCESS
    requires ContextsGreen(ev, ProtectedContexts(rules.policy))
    ensures Next(rules, Next(rules, Next(rules, w, ByCall(0, CallHead)), ByCall(0, CallRefresh(false))),
        ByCall(0, CallDecide(ev))) ==
            w.(calls := map[0 := Decided(w.row, ev.head, w.gh.base, false, ev)])
  {
    hide Next, Approved, ContextsGreen, ProtectedContexts, PlainPolicy, BehindRef, Behind, TryWith;
    PlainApproval(rules.policy, w.row, ev, true);
    assert forall x, y: Call :: map[0 := x][0 := y] == map[0 := y];
    NextIsCall(rules, w, 0, CallHead);
    NextIsCall(rules, w.(calls := map[0 := SawHead(w.row, ev.head, w.gh.base)]), 0, CallRefresh(false));
    NextIsCall(rules, w.(calls := map[0 := ReRead(w.row, ev.head, w.gh.base, false)]), 0, CallDecide(ev));
  }
}
