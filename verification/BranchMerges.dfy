/** The orchestrator's own merges: they are meant for integration branches, and exactly when they miss them. */
module BranchMerges {
  import opened Prelude
  import opened Lifecycle
  import opened StateStore
  import opened MergePolicy
  import opened MergeProtocol
  import opened ProtocolRuns
  import opened StepFrames
  import Periods

  predicate Integration(branch: string) {
    StartsWith(branch, "integration/")
  }

  /** Every branch the orchestrator may choose is an integration branch: ROOT branches by their registration, the
      period's by the calendar, the rollup's because it was a period's. */
  ghost predicate BranchesOk(w: World) {
    && (w.rootBranch.Some? ==> Integration(w.rootBranch.value))
    && (w.period.Some? ==> Integration(w.period.value.branch))
    && (w.rollup.Some? ==> Integration(w.rollup.value))
    && (w.tick.Retargeted? ==> Integration(w.tick.branch))
    && (forall m :: m in w.merges && m.BranchMerge? ==> Integration(m.branch))
  }

  /** The step neither chooses nor uses a branch. */
  ghost predicate Aside(w: World, after: World) {
    && after.rootBranch == w.rootBranch && after.period == w.period && after.rollup == w.rollup
    && (after.tick.Retargeted? ==> after.tick == w.tick) && after.merges == w.merges
  }

  lemma AsideKeeps(w: World, after: World)
    requires BranchesOk(w) && Aside(w, after)
    ensures BranchesOk(after)
  {
    hide StartsWith;
  }

  /** Only these steps do. */
  predicate AboutBranches(a: Action) {
    || (a.ByTick? && (a.tick.Retarget? || a.tick.MergeIntoBranch?)) || (a.ByCall? && a.call.CallMerge?)
    || (a.ByLead? && OnBranches(a.lead))
  }

  lemma OthersAreAside(w: World, a: Action, after: World)
    requires Framed(w, a, after) && !AboutBranches(a)
    ensures Aside(w, after)
  {
    hide TickFrame, CallFrame, LeadFrame, Aside, NextEnv;
    match a
    case ByTick(s) => TicksAreAside(w, s, after);
    case ByCall(id, s) => CallsAreAside(w, id, s, after);
    case _ => ThreadsAreAside(w, a, after);
  }

  lemma TicksAreAside(w: World, s: TickStep, after: World)
    requires TickFrame(w, s, after) && !s.Retarget? && !s.MergeIntoBranch?
    ensures Aside(w, after)
  {
  }

  lemma CallsAreAside(w: World, id: int, s: CallStep, after: World)
    requires CallFrame(w, id, s, after) && !s.CallMerge?
    ensures Aside(w, after)
  {
    hide Beside;
  }

  lemma ThreadsAreAside(w: World, a: Action, after: World)
    requires Framed(w, a, after) && !a.ByTick? && !a.ByCall? && !(a.ByLead? && OnBranches(a.lead))
    ensures Aside(w, after)
  {
    hide TickFrame, CallFrame;
  }

  lemma BranchesKeep(rules: Rules, w: World, s: LeadStep)
    requires BranchesOk(w)
    ensures BranchesOk(NextBranches(rules, w, s))
  {
    if s.StartPeriod? && Periods.IsPeriodAround(rules.cal, s.p, s.day) {
      Periods.PeriodBranchIsIntegration(rules.cal, s.p, s.day);
    }
    hide StartsWith, Periods.IsPeriodAround;
  }

  lemma MergesKeep(rules: Rules, w: World, s: TickStep)
    requires BranchesOk(w) && (s.Retarget? || s.MergeIntoBranch?)
    ensures BranchesOk(NextPassed(rules, w, s))
  {
    hide StartsWith, PassesReview, Allowed;
  }

  lemma OwnersMergeKeepsBranches(w: World, id: int, s: CallStep, after: World)
    requires BranchesOk(w) && CallFrame(w, id, s, after)
    ensures BranchesOk(after)
  {
    hide StartsWith, Beside;
    if after.merges != w.merges { assert after.merges == w.merges + [Last(after.merges)]; }
  }

  lemma StepKeepsBranches(rules: Rules, w: World, a: Action)
    requires BranchesOk(w)
    ensures BranchesOk(Next(rules, w, a))
  {
    hide NextCall, NextBranches, NextPassed, BranchesOk, Aside, Framed, CallFrame, OnBranches, NextWorker, NextReviewer,
         NextOrder, NextClaim, NextAdvance, NextUpdate, NextFound;
    if !AboutBranches(a) {
      hide Next;
      StepIsFramed(rules, w, a);
      OthersAreAside(w, a, Next(rules, w, a));
      AsideKeeps(w, Next(rules, w, a));
    } else if a.ByTick? {
      MergesKeep(rules, w, a.tick);
    } else if a.ByCall? {
      CallIsFramed(rules, w, a.id, a.call);
      OwnersMergeKeepsBranches(w, a.id, a.call, NextCall(rules, w, a.id, a.call));
    } else {
      BranchesKeep(rules, w, a.lead);
    }
  }

  lemma {:induction false} EveryRunKeepsBranches(rules: Rules, w: World, actions: seq<Action>)
    requires BranchesOk(w)
    ensures BranchesOk(RunOf(rules, w, actions))
    decreases actions
  {
    hide BranchesOk, Next;
    if actions != [] {
      StepKeepsBranches(rules, w, actions[0]);
      EveryRunKeepsBranches(rules, Next(rules, w, actions[0]), actions[1..]);
    }
  }

  // --- from the retargeting to the merge ----------------------------------------------------------

  /** The step ends the tick's work on the Issue. */
  predicate Ends(a: Action) {
    a == ByEnv(OrchestratorCrash) || (a.ByTick? && (a.tick.LetGo? || a.tick.BlockIt? || a.tick.MergeIntoBranch?))
  }

  /** Sent off the branch: by whoever retargets the pull request on GitHub, or by the orchestrator itself when it
      finishes the rollup of that branch. */
  predicate MovesOff(w: World, a: Action, branch: string) {
    (a.ByEnv? && a.env.GitHubChanges? && a.env.gh.base != branch)
    || (a.ByLead? && a.lead.FinishRollup? && branch == if w.rollup.Some? then w.rollup.value else a.lead.own)
  }

  predicate PutsBack(a: Action, branch: string) {
    a.ByEnv? && a.env.GitHubChanges? && a.env.gh.base == branch
  }

  /** Some step sends the pull request off the branch and none puts it back afterwards. */
  ghost predicate Diverted(rules: Rules, w: World, window: seq<Action>, branch: string) {
    exists i :: 0 <= i < |window| && MovesOff(RunOf(rules, w, window[..i]), window[i], branch)
                && forall j :: i < j < |window| ==> !PutsBack(window[j], branch)
  }

  lemma DivertedSnoc(rules: Rules, w: World, window: seq<Action>, a: Action, branch: string)
    ensures Diverted(rules, w, window + [a], branch) <==>
            MovesOff(RunOf(rules, w, window), a, branch) || (Diverted(rules, w, window, branch) && !PutsBack(a, branch))
  {
    hide RunOf, MovesOff, PutsBack;
    var all := window + [a];
    assert all[..|window|] == window;
    assert forall i :: 0 <= i < |window| ==> all[..i] == window[..i] && all[i] == window[i];
    if MovesOff(RunOf(rules, w, window), a, branch) {
      assert MovesOff(RunOf(rules, w, all[..|window|]), all[|window|], branch);
    }
    if Diverted(rules, w, window, branch) && !PutsBack(a, branch) {
      var i :| 0 <= i < |window| && MovesOff(RunOf(rules, w, window[..i]), window[i], branch)
                && forall j :: i < j < |window| ==> !PutsBack(window[j], branch);
      assert MovesOff(RunOf(rules, w, all[..i]), all[i], branch);
    }
    if Diverted(rules, w, all, branch) {
      var i :| 0 <= i < |all| && MovesOff(RunOf(rules, w, all[..i]), all[i], branch)
                && forall j :: i < j < |all| ==> !PutsBack(all[j], branch);
      if i < |window| {
        assert MovesOff(RunOf(rules, w, window[..i]), window[i], branch);
        assert !PutsBack(all[|window|], branch);
        assert forall j :: i < j < |window| ==> !PutsBack(window[j], branch) by {
          forall j | i < j < |window| ensures !PutsBack(window[j], branch) { assert !PutsBack(all[j], branch); }
        }
      }
    }
  }

  /** While the tick holds the retargeted pull request, its base moves with these steps only. */
  lemma BaseStep(rules: Rules, w: World, a: Action)
    requires w.tick.Retargeted? && Integration(w.tick.branch) && !w.gh.merged && !Ends(a)
    ensures var after := Next(rules, w, a);
            && after.tick == w.tick
            && (!after.gh.merged ==> (after.gh.base != w.tick.branch <==>
                  MovesOff(w, a, w.tick.branch) || (w.gh.base != w.tick.branch && !PutsBack(a, w.tick.branch))))
  {
    if a.ByLead? && OnBranches(a.lead) {
      BranchesMoveBase(rules, w, a.lead);
      hide NextBranches, NextOrder;
    } else {
      hide Next, OnBranches, Beside;
      StepIsFramed(rules, w, a);
    }
  }

  lemma BranchesMoveBase(rules: Rules, w: World, s: LeadStep)
    requires !w.gh.merged
    ensures var after := NextBranches(rules, w, s);
            && after.tick == w.tick
            && after.gh.base ==
                if s.FinishRollup? && w.gh.base == (if w.rollup.Some? then w.rollup.value else s.own) then "main"
                else w.gh.base
  {
    hide Periods.IsPeriodAround, StartsWith;
  }

  lemma MergedStays(w: World, a: Action, after: World)
    requires Framed(w, a, after) && w.gh.merged
    ensures after.gh.merged
  {
    hide Beside, OnBranches;
  }

  lemma {:induction false} BaseFollows(rules: Rules, w: World, window: seq<Action>)
    requires w.tick.Retargeted? && Integration(w.tick.branch) && w.gh.base == w.tick.branch
    requires forall a :: a in window ==> !Ends(a)
    requires !RunOf(rules, w, window).gh.merged
    ensures var now := RunOf(rules, w, window);
            now.tick == w.tick && (now.gh.base != w.tick.branch <==> Diverted(rules, w, window, w.tick.branch))
    decreases |window|
  {
    hide Next, Framed, Ends, MovesOff, PutsBack, StartsWith;
    if window != [] {
      var v, a := DropLast(window), Last(window);
      assert window == v + [a];
      RunSnoc(rules, w, v, a);
      var before := RunOf(rules, w, v);
      StepIsFramed(rules, before, a);
      if before.gh.merged { MergedStays(before, a, Next(rules, before, a)); }
      BaseFollows(rules, w, v);
      BaseStep(rules, before, a);
      DivertedSnoc(rules, w, v, a, w.tick.branch);
    }
  }

  /** Whenever the tick holds a retargeted pull request, it retargeted it itself and has not let go since. */
  lemma {:induction false} RetargetedSince(rules: Rules, start: World, actions: seq<Action>) returns (k: nat)
    requires !start.tick.Retargeted? && RunOf(rules, start, actions).tick.Retargeted?
    ensures k < |actions| && actions[k].ByTick? && actions[k].tick.Retarget?
    ensures var w := RunOf(rules, start, actions[..k + 1]);
            w.tick == RunOf(rules, start, actions).tick && w.gh.base == w.tick.branch
    ensures forall a :: a in actions[k + 1..] ==> !Ends(a)
    decreases |actions|
  {
    hide Next, Framed, Ends;
    assert actions != [];
    var v, a := DropLast(actions), Last(actions);
    assert actions == v + [a];
    RunSnoc(rules, start, v, a);
    var before := RunOf(rules, start, v);
    StepIsFramed(rules, before, a);
    RetargetedStep(before, a, Next(rules, before, a));
    if before.tick.Retargeted? {
      k := RetargetedSince(rules, start, v);
      assert actions[..k + 1] == v[..k + 1] && actions[k + 1..] == v[k + 1..] + [a];
    } else {
      k := |v|;
      assert actions[..k + 1] == actions && actions[k + 1..] == [];
    }
  }

  lemma RetargetedStep(w: World, a: Action, after: World)
    requires Framed(w, a, after) && after.tick.Retargeted?
    ensures if w.tick.Retargeted? then after.tick == w.tick && !Ends(a)
            else a.ByTick? && a.tick.Retarget? && after.gh.base == after.tick.branch
  {
    hide Beside, OnBranches;
  }

  lemma InitialBranches(start: World)
    requires Initial(start)
    ensures BranchesOk(start) && !start.tick.Retargeted?
  {
  }

  lemma MergesIntoBranch(w: World, a: Action, after: World)
    requires Framed(w, a, after) && after.merges != w.merges && after.merges != [] && Last(after.merges).BranchMerge?
    ensures a.ByTick? && a.tick.MergeIntoBranch? && BranchMerged(w, after)
  {
    hide Beside, OnBranches;
  }

  /** The step adds a merge of the orchestrator's own. */
  ghost predicate NewBranchMerge(rules: Rules, w: World, a: Action) {
    var after := Next(rules, w, a);
    after.merges != w.merges && after.merges != [] && Last(after.merges).BranchMerge?
  }

  /** Every merge of the orchestrator, in every run, was meant for an integration branch, to which the tick had
      retargeted the pull request by its action `k`. It reached another branch if and only if, after that action,
      somebody retargeted the pull request or the orchestrator finished the rollup of that very branch, and nobody put
      it back: GitHub's merge is guarded by the head SHA, not by the base. */
  lemma BranchMergesEscapeExactly(rules: Rules, start: World, actions: seq<Action>, a: Action) returns (k: nat)
    requires Initial(start) && NewBranchMerge(rules, RunOf(rules, start, actions), a)
    ensures k < |actions| && actions[k].ByTick? && actions[k].tick.Retarget?
    ensures var retargeted := RunOf(rules, start, actions[..k + 1]);
            var m := Last(Next(rules, RunOf(rules, start, actions), a).merges);
            && Integration(m.branch) && retargeted.gh.base == m.branch
            && (m.base != m.branch <==> Diverted(rules, retargeted, actions[k + 1..], m.branch))
            && (m.base == m.branch ==> m.base != "main")
  {
    hide RunOf, MovesOff, PutsBack, Ends, Initial, Diverted, Next, Framed;
    var w := RunOf(rules, start, actions);
    StepIsFramed(rules, w, a);
    MergesIntoBranch(w, a, Next(rules, w, a));
    InitialBranches(start);
    k := RetargetedSince(rules, start, actions);
    var retargeted := RunOf(rules, start, actions[..k + 1]);
    EveryRunKeepsBranches(rules, start, actions);
    assert actions == actions[..k + 1] + actions[k + 1..];
    RunConcat(rules, start, actions[..k + 1], actions[k + 1..]);
    BaseFollows(rules, retargeted, actions[k + 1..]);
  }

  // --- the escape ---------------------------------------------------------------------------------

  /** A child is started in a period and passes its review after the period's rollup was opened; the tick lets it join
      the rollup's branch while the rollup, merged by the owner, is being finished. */
  function Escape(p: Periods.Period, day: int, ev: CiEvidence, mergeSha: Sha): seq<Action> {
    [ByLead(StartPeriod(p, day))] + CLAIM_AND_RUN + [ByWorker(FinishRun)] + ToReview(ev) + ToVerdict(APPROVE)
    + [ByReviewer(Settle), ByLead(EndPeriod(true)), ByTick(TakeUp), ByTick(ReadPr), ByTick(Retarget(ev, false))]
    + [ByLead(FinishRollup(""))] + [ByTick(MergeIntoBranch(mergeSha))]
  }

  lemma JoiningRuns(rules: Rules, w: World, ev: CiEvidence)
    requires w.row.state == REVIEW && w.row.validated == Some(w.gh.head)
    requires w.row.verdict == Some(Verdict(APPROVE, Some(w.gh.head)))
    requires w.reviewer.Wrote? && w.reviewer.kind == APPROVE && w.tick.Idle? && w.row.kind != Rollup
    requires w.rootBranch.None?
    requires PlainPolicy(rules.policy, w.row.risk) && ev.status == SUCCESS && ev.head == w.gh.head
    requires w.period.Some? && w.gh.base == w.period.value.branch && Integration(w.gh.base)
    ensures RunOf(rules, w,
        [ByReviewer(Settle), ByLead(EndPeriod(true)), ByTick(TakeUp), ByTick(ReadPr),
            ByTick(Retarget(ev, false))]) ==
            w.(reviewer := NoReviewer, period := None, rollup := Some(w.gh.base),
                tick := Retargeted(w.row, ev, false, w.gh.base))
  {
    hide NextAdvance, NextUpdate, NextClaim, NextFound, StartsWith, Approved;
    PlainApproval(rules.policy, w.row, ev, false);
    Run5(rules, w, ByReviewer(Settle), ByLead(EndPeriod(true)), ByTick(TakeUp), ByTick(ReadPr),
        ByTick(Retarget(ev, false)));
  }

  lemma EscapeStarts(rules: Rules, start: World, p: Periods.Period, day: int, ev: CiEvidence)
    requires Waiting(start) && Periods.IsPeriodAround(rules.cal, p, day) && ev.status == SUCCESS
    requires ev.head == start.gh.head
    requires start.row.verdict.None?
    ensures var w :=
        RunOf(rules, start,
            [ByLead(StartPeriod(p, day))] + CLAIM_AND_RUN + [ByWorker(FinishRun)] + ToReview(ev) + ToVerdict(APPROVE));
            && w.row.state == REVIEW && w.row.validated == Some(w.gh.head)
            && w.row.verdict == Some(Verdict(APPROVE, Some(w.gh.head)))
            && w.row.kind == start.row.kind && w.row.risk == start.row.risk && w.reviewer.Wrote?
            && w.reviewer.kind == APPROVE && w.tick.Idle?
            && w.period == Some(p) && w.gh == start.gh && w.rootBranch == start.rootBranch && w.merges == start.merges
  {
    hide Next, Periods.IsPeriodAround;
    var w0 := start.(period := Some(p));
    StartPeriodRuns(rules, start, p, day);
    ClaimAndRunRuns(rules, w0);
    var w1 := RunOf(rules, w0, CLAIM_AND_RUN);
    FinishRuns(rules, w1);
    var w2 := Next(rules, w1, ByWorker(FinishRun));
    ToReviewRuns(rules, w2, ev);
    var w3 := RunOf(rules, w2, ToReview(ev));
    ToVerdictRuns(rules, w3, APPROVE);
    var a1 := [ByLead(StartPeriod(p, day))] + CLAIM_AND_RUN;
    RunConcat(rules, start, [ByLead(StartPeriod(p, day))], CLAIM_AND_RUN);
    RunSnoc(rules, start, a1, ByWorker(FinishRun));
    RunConcat(rules, start, a1 + [ByWorker(FinishRun)], ToReview(ev));
    RunConcat(rules, start, a1 + [ByWorker(FinishRun)] + ToReview(ev), ToVerdict(APPROVE));
  }

  lemma StartPeriodRuns(rules: Rules, w: World, p: Periods.Period, day: int)
    requires Periods.IsPeriodAround(rules.cal, p, day)
    ensures RunOf(rules, w, [ByLead(StartPeriod(p, day))]) == w.(period := Some(p))
  {
    hide Periods.IsPeriodAround;
    RunSnoc(rules, w, [], ByLead(StartPeriod(p, day)));
    assert [] + [ByLead(StartPeriod(p, day))] == [ByLead(StartPeriod(p, day))];
  }

  lemma FinishThenMerge(rules: Rules, w: World, mergeSha: Sha)
    requires w.tick.Retargeted? && w.rollup == Some(w.gh.base) && !w.gh.merged && w.tick.ev.head == w.gh.head
    ensures var after := Next(rules, Next(rules, w, ByLead(FinishRollup(""))), ByTick(MergeIntoBranch(mergeSha)));
            after.merges == w.merges
                + [BranchMerge(w.gh.head, w.gh.head, w.tick.row, w.tick.ev, w.tick.lost, w.tick.branch, "main")]
  {
    hide NextAdvance, NextUpdate, NextClaim, NextFound, NextOrder;
  }

  /** The escape happens with nobody but the orchestrator touching the pull request: for any period, and any waiting
      ROOT or child whose pull request targets that period's branch, this run from its first tracking ends with the
      orchestrator's own merge in main. */
  lemma OwnRetargetingEscapes(rules: Rules, start: World, p: Periods.Period, day: int, ev: CiEvidence, mergeSha: Sha)
    requires Initial(start) && start.row.state == QUEUED && PlainPolicy(rules.policy, start.row.risk)
    requires Periods.IsPeriodAround(rules.cal, p, day) && start.gh.base == p.branch && !start.gh.merged
    requires ev.status == SUCCESS && ev.head == start.gh.head
    ensures var w := RunOf(rules, start, Escape(p, day, ev, mergeSha));
            |w.merges| == 1 && w.merges[0].BranchMerge? && w.merges[0].branch == p.branch && Integration(p.branch)
                && w.merges[0].base == "main"
  {
    hide Next, Periods.IsPeriodAround, StartsWith;
    Periods.PeriodBranchIsIntegration(rules.cal, p, day);
    EscapeStarts(rules, start, p, day, ev);
    var a := [ByLead(StartPeriod(p, day))] + CLAIM_AND_RUN + [ByWorker(FinishRun)] + ToReview(ev) + ToVerdict(APPROVE);
    var b := [ByReviewer(Settle), ByLead(EndPeriod(true)), ByTick(TakeUp), ByTick(ReadPr),
        ByTick(Retarget(ev, false))];
    JoiningRuns(rules, RunOf(rules, start, a), ev);
    RunConcat(rules, start, a, b);
    FinishThenMerge(rules, RunOf(rules, start, a + b), mergeSha);
    RunSnoc(rules, start, a + b, ByLead(FinishRollup("")));
    RunSnoc(rules, start, a + b + [ByLead(FinishRollup(""))], ByTick(MergeIntoBranch(mergeSha)));
  }
}
