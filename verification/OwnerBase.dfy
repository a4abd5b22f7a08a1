/** The base an owner's merge lands on: the call reads it, fetches, and counts how far the worktree is behind it as the
    clone knows it; GitHub merges later and guards the head only. What the base is at the merge, in every run. */
module OwnerBase {
  import opened Prelude
  import opened Lifecycle
  import opened StateStore
  import opened MergePolicy
  import opened MergeProtocol
  import opened ProtocolRuns
  import opened StepFrames
  import Periods

  /** A pull request's head, its base, and that branch's tip. */
  datatype BaseView = BaseView(head: Sha, base: string, tip: Option<Sha>)

  function View(w: World): BaseView {
    BaseView(w.gh.head, w.gh.base, Tip(w.branches, w.gh.base))
  }

  /** The commits of the base that the head lacks. */
  function Missing(rules: Rules, v: BaseView): set<Sha> {
    Lacking(rules, v.head, v.tip)
  }

  // --- what touches head and base -----------------------------------------------------------------

  /** What a step makes of them, if it touches them: GitHub's pull request or branches change, the tick pushes the
      worktree or sends the pull request to its branch, or the orchestrator moves it to main with the branch's
      rollup. */
  ghost function Touch(rules: Rules, w: World, a: Action): Option<BaseView> {
    match a
    case ByEnv(GitHubChanges(gh)) => Some(BaseView(gh.head, gh.base, Tip(w.branches, gh.base)))
    case ByEnv(BranchesChange(branches)) => Some(BaseView(w.gh.head, w.gh.base, Tip(branches, w.gh.base)))
    case ByTick(Retarget(ev, lost)) =>
      var branch := if w.tick.SawPr? then JoinedBranch(w, w.tick.row, w.tick.pr.base) else None;
      if PassesReview(rules, w, ev, lost) && branch.Some?
      then Some(BaseView(w.gh.head, branch.value, Tip(w.branches, branch.value))) else None
    case ByTick(PushTree) =>
      if w.tick.Updated? && rules.history(w.gh.head) <= rules.history(w.clone.tree)
      then Some(BaseView(w.clone.tree, w.gh.base, Tip(w.branches, w.gh.base))) else None
    case ByLead(FinishRollup(own)) =>
      var branch := if w.rollup.Some? then w.rollup.value else own;
      if w.gh.base == branch && !w.gh.merged
      then Some(BaseView(w.gh.head, "main", Tip(w.branches, "main"))) else None
    case _ => None
  }

  /** What the last step that touches them makes of them. */
  ghost function LastTouch(rules: Rules, w: World, actions: seq<Action>): Option<BaseView>
    decreases actions
  {
    if actions == [] then None
    else
      var later := LastTouch(rules, Next(rules, w, actions[0]), actions[1..]);
      if later.Some? then later else Touch(rules, w, actions[0])
  }

  lemma RetargetTouchesView(rules: Rules, w: World, s: TickStep)
    requires s.Retarget?
    ensures View(Next(rules, w, ByTick(s))) == Now(Touch(rules, w, ByTick(s)), View(w))
  {
    hide GatesGreen, JoinedBranch, NextClaim, NextAdvance, NextUpdate, NextFound;
  }

  lemma PushTouchesView(rules: Rules, w: World)
    ensures View(Next(rules, w, ByTick(PushTree))) == Now(Touch(rules, w, ByTick(PushTree)), View(w))
  {
    hide NextClaim, NextAdvance, NextPassed, NextFound;
  }

  lemma BranchesTouchView(rules: Rules, w: World, s: LeadStep)
    requires OnBranches(s)
    ensures View(Next(rules, w, ByLead(s))) == Now(Touch(rules, w, ByLead(s)), View(w))
  {
    hide StartsWith, Periods.IsPeriodAround, NextOrder;
  }

  lemma GitHubTouchesView(rules: Rules, w: World, s: EnvStep)
    ensures View(Next(rules, w, ByEnv(s))) == Now(Touch(rules, w, ByEnv(s)), View(w))
  {
  }

  function Now(touched: Option<BaseView>, before: BaseView): BaseView {
    match touched case Some(v) => v case None => before
  }

  predicate MovesBranches(a: Action) {
    a.ByEnv? && a.env.BranchesChange?
  }

  /** What the frame says of head, base and branches. */
  lemma FrameOfView(w: World, a: Action, after: World)
    requires Framed(w, a, after)
    ensures MovesBranches(a) || after.branches == w.branches
    ensures after.clone.fetched == w.clone.fetched || after.clone.fetched == w.branches
    ensures !a.ByEnv? && !(a.ByTick? && (a.tick.Retarget? || a.tick.PushTree?)) && !(a.ByLead? && OnBranches(a.lead))
            ==> View(after) == View(w)
  {
    hide OnBranches, Beside;
  }

  /** Nothing else touches head or base. Branches move on GitHub, and what the clone has fetched with a fetch. */
  lemma StepTouches(rules: Rules, w: World, a: Action)
    ensures var after := Next(rules, w, a);
            && View(after) == Now(Touch(rules, w, a), View(w))
            && (!MovesBranches(a) ==> after.branches == w.branches)
            && (after.clone.fetched == w.clone.fetched || after.clone.fetched == w.branches)
  {
    hide Next, View, Framed, PassesReview, JoinedBranch, OnBranches;
    StepIsFramed(rules, w, a);
    FrameOfView(w, a, Next(rules, w, a));
    if a.ByTick? && a.tick.Retarget? {
      RetargetTouchesView(rules, w, a.tick);
    } else if a.ByTick? && a.tick.PushTree? {
      PushTouchesView(rules, w);
    } else if a.ByLead? && OnBranches(a.lead) {
      BranchesTouchView(rules, w, a.lead);
    } else if a.ByEnv? {
      GitHubTouchesView(rules, w, a.env);
    } else {
      assert a.ByLead? ==> !a.lead.FinishRollup? by { OnlyBranches(a); }
    }
  }

  lemma OnlyBranches(a: Action)
    ensures a.ByLead? && a.lead.FinishRollup? ==> OnBranches(a.lead)
  {
  }

  lemma {:induction false} ViewIsLastTouch(rules: Rules, w: World, actions: seq<Action>)
    ensures View(RunOf(rules, w, actions)) == Now(LastTouch(rules, w, actions), View(w))
    decreases actions
  {
    hide Next, Touch, View;
    if actions != [] {
      StepTouches(rules, w, actions[0]);
      ViewIsLastTouch(rules, Next(rules, w, actions[0]), actions[1..]);
    }
  }

  /** What was fetched stays current until GitHub's branches move. */
  lemma {:induction false} FetchedStaysCurrent(rules: Rules, w: World, actions: seq<Action>)
    requires w.clone.fetched == w.branches && forall a :: a in actions ==> !MovesBranches(a)
    ensures var after := RunOf(rules, w, actions); after.clone.fetched == after.branches
    decreases actions
  {
    hide Next, MovesBranches;
    if actions != [] {
      assert actions[0] in actions;
      StepTouches(rules, w, actions[0]);
      FetchedStaysCurrent(rules, Next(rules, w, actions[0]), actions[1..]);
    }
  }

  // --- how a call came where it is -----------------------------------------------------------------

  /** The step brings the call to `c`. */
  ghost predicate Becomes(rules: Rules, w: World, id: int, s: CallStep, c: Call) {
    var after := NextCall(rules, w, id, s).calls;
    id in after && after[id] == c && !(id in w.calls && w.calls[id] == c)
  }

  lemma BecomesBy(rules: Rules, w: World, a: Action, id: int, c: Call)
    requires var after := Next(rules, w, a).calls; id in after && after[id] == c
    ensures (id in w.calls && w.calls[id] == c) || (a.ByCall? && a.id == id && Becomes(rules, w, id, a.call, c))
  {
    if a.ByCall? && a.id == id {
      hide NextCall;
    } else {
      hide Next, TickFrame, OnBranches;
      StepIsFramed(rules, w, a);
    }
  }

  lemma {:induction false} CallSince(rules: Rules, start: World, actions: seq<Action>, id: int, c: Call)
    returns (k: nat)
    requires start.calls == map[]
    requires var calls := RunOf(rules, start, actions).calls; id in calls && calls[id] == c
    ensures k < |actions| && actions[k].ByCall? && actions[k].id == id
    ensures Becomes(rules, RunOf(rules, start, actions[..k]), id, actions[k].call, c)
    decreases |actions|
  {
    hide Next, Becomes;
    assert actions != [];
    var v, a := DropLast(actions), Last(actions);
    assert actions == v + [a];
    RunSnoc(rules, start, v, a);
    var before := RunOf(rules, start, v);
    BecomesBy(rules, before, a, id, c);
    if id in before.calls && before.calls[id] == c {
      k := CallSince(rules, start, v, id, c);
      assert actions[..k] == v[..k];
    } else {
      k := |v|;
      assert actions[..k] == v;
    }
  }

  lemma ReadsBase(rules: Rules, w: World, id: int, s: CallStep, c: Call)
    requires Becomes(rules, w, id, s, c) && c.BaseRead?
    ensures s.CallBase? && id in w.calls && w.calls[id] == Fetched(c.row, c.head, c.base, c.lost, c.ev)
    ensures c.behind == (if s.readable then BehindRef(rules, w.clone, c.base) else None)
    ensures c.behind in {None, Some(0)}
  {
    hide Allowed, Approved, StartsWith, BehindRef, Behind;
  }

  lemma Fetches(rules: Rules, w: World, id: int, s: CallStep, c: Call)
    requires Becomes(rules, w, id, s, c) && c.Fetched?
    ensures s.CallFetch? && id in w.calls && w.calls[id] == Decided(c.row, c.head, c.base, c.lost, c.ev)
    ensures var after := NextCall(rules, w, id, s);
            s.ok ==> after.clone.fetched == w.branches == after.branches
  {
    hide Allowed, Approved, StartsWith, BehindRef, Behind;
  }

  lemma Decides(rules: Rules, w: World, id: int, s: CallStep, c: Call)
    requires Becomes(rules, w, id, s, c) && c.Decided?
    ensures s.CallDecide? && id in w.calls && w.calls[id] == ReRead(c.row, c.head, c.base, c.lost)
  {
    hide Allowed, Approved, StartsWith, BehindRef, Behind;
  }

  lemma Rereads(rules: Rules, w: World, id: int, s: CallStep, c: Call)
    requires Becomes(rules, w, id, s, c) && c.ReRead?
    ensures s.CallRefresh? && id in w.calls && w.calls[id].SawHead?
    ensures w.calls[id].head == c.head && w.calls[id].base == c.base
  {
    hide Allowed, Approved, StartsWith, BehindRef, Behind;
  }

  lemma SeesHead(rules: Rules, w: World, id: int, s: CallStep, c: Call)
    requires Becomes(rules, w, id, s, c) && c.SawHead?
    ensures s == CallHead && w.gh.head == c.head && w.gh.base == c.base
  {
    hide Allowed, Approved, StartsWith, BehindRef, Behind;
  }

  /** A call that has counted read the head by its action `h`, fetched by `f` and counted by `k`. */
  lemma CountedSince(rules: Rules, start: World, actions: seq<Action>, id: int, c: Call)
    returns (h: nat, f: nat, k: nat)
    requires start.calls == map[] && c.BaseRead?
    requires var calls := RunOf(rules, start, actions).calls; id in calls && calls[id] == c
    ensures h < f < k < |actions| && actions[h] == ByCall(id, CallHead)
    ensures actions[f].ByCall? && actions[f].id == id && actions[f].call.CallFetch?
    ensures actions[k].ByCall? && actions[k].id == id && actions[k].call.CallBase?
    ensures RunOf(rules, start, actions[..h]).gh.base == c.base
    ensures var fetched := RunOf(rules, start, actions[..f + 1]);
            actions[f].call.ok ==> fetched.clone.fetched == fetched.branches
    ensures c.behind == if actions[k].call.readable
                        then BehindRef(rules, RunOf(rules, start, actions[..k]).clone, c.base) else None
    ensures c.behind in {None, Some(0)}
  {
    hide RunOf, Becomes, NextCall, BehindRef;
    k := CallSince(rules, start, actions, id, c);
    ReadsBase(rules, RunOf(rules, start, actions[..k]), id, actions[k].call, c);
    var c1 := Fetched(c.row, c.head, c.base, c.lost, c.ev);
    f := CallSince(rules, start, actions[..k], id, c1);
    assert actions[..k][..f] == actions[..f] && actions[..k][f] == actions[f];
    Fetches(rules, RunOf(rules, start, actions[..f]), id, actions[f].call, c1);
    assert actions[..f + 1] == actions[..f] + [actions[f]];
    RunSnoc(rules, start, actions[..f], actions[f]);
    var d := CallSince(rules, start, actions[..f], id, Decided(c.row, c.head, c.base, c.lost, c.ev));
    h := HeadReadSince(rules, start, actions[..f], id, Decided(c.row, c.head, c.base, c.lost, c.ev));
    assert actions[..f][..h] == actions[..h] && actions[..f][h] == actions[h];
  }

  lemma HeadReadSince(rules: Rules, start: World, actions: seq<Action>, id: int, c: Call) returns (h: nat)
    requires start.calls == map[] && c.Decided?
    requires var calls := RunOf(rules, start, actions).calls; id in calls && calls[id] == c
    ensures h < |actions| && actions[h] == ByCall(id, CallHead) && RunOf(rules, start, actions[..h]).gh.base == c.base
  {
    hide RunOf, Becomes;
    var d := CallSince(rules, start, actions, id, c);
    Decides(rules, RunOf(rules, start, actions[..d]), id, actions[d].call, c);
    var c1 := ReRead(c.row, c.head, c.base, c.lost);
    var r := CallSince(rules, start, actions[..d], id, c1);
    assert actions[..d][..r] == actions[..r] && actions[..d][r] == actions[r];
    var before := RunOf(rules, start, actions[..r]);
    Rereads(rules, before, id, actions[r].call, c1);
    var c2 := before.calls[id];
    h := CallSince(rules, start, actions[..r], id, c2);
    assert actions[..r][..h] == actions[..h] && actions[..r][h] == actions[h];
    SeesHead(rules, RunOf(rules, start, actions[..h]), id, actions[h].call, c2);
  }

  // --- every owner's merge -------------------------------------------------------------------------

  /** The step adds a merge of the owner's. */
  ghost predicate NewOwnerMerge(rules: Rules, w: World, a: Action) {
    var after := Next(rules, w, a);
    after.merges != w.merges && after.merges != [] && Last(after.merges).OwnerMerge?
  }

  lemma MergesForOwner(w: World, a: Action, after: World)
    requires Framed(w, a, after) && after.merges != w.merges && after.merges != [] && Last(after.merges).OwnerMerge?
    ensures a.ByCall? && a.call.CallMerge?
  {
    hide Beside, OnBranches;
  }

  lemma MergeIsFromCounted(rules: Rules, w: World, id: int, mergeSha: Sha)
    requires NextCall(rules, w, id, CallMerge(mergeSha)).merges != w.merges
    ensures id in w.calls && w.calls[id].BaseRead?
    ensures var m := Last(NextCall(rules, w, id, CallMerge(mergeSha)).merges);
            && m.OwnerMerge? && m.baseRead == w.calls[id].base && m.behindRead == w.calls[id].behind
            && m.baseThen == w.gh.base && m.behindThen == |Missing(rules, View(w))|
  {
  }

  lemma RunContinues(rules: Rules, start: World, actions: seq<Action>, n: nat)
    requires n <= |actions|
    ensures RunOf(rules, RunOf(rules, start, actions[..n]), actions[n..]) == RunOf(rules, start, actions)
  {
    hide RunOf;
    RunConcat(rules, start, actions[..n], actions[n..]);
    assert actions[..n] + actions[n..] == actions;
  }

  /** The commits a count of zero overlooks: those of the base that were not fetched, and those of the base that are in
      the worktree only, as far as the head lacks them. */
  ghost function Overlooked(rules: Rules, w: World, base: string): set<Sha> {
    var head, tree := rules.history(w.gh.head), rules.history(w.clone.tree);
    var tip, ref := Tip(w.branches, base), BaseRef(w.clone, base);
    if tip.None? then {}
    else
      var unfetched := rules.history(tip.value) - if ref.Some? then rules.history(ref.value) else {};
      (unfetched - head) + (rules.history(tip.value) * (tree - head))
  }

  lemma ZeroOverlooks(rules: Rules, w: World)
    requires BehindRef(rules, w.clone, w.gh.base) == Some(0)
    ensures Missing(rules, View(w)) == Overlooked(rules, w, w.gh.base)
  {
    var ref := BaseRef(w.clone, w.gh.base).value;
    var ahead := rules.history(ref) - rules.history(w.clone.tree);
    assert |ahead| == 0;
    assert forall c :: c in rules.history(ref) ==> c in ahead || c in rules.history(w.clone.tree);
  }

  /** What the call read says nothing of the present base. */
  ghost predicate Blind(rules: Rules, w: World, baseRead: string, behindRead: Option<nat>) {
    || behindRead.None? || w.gh.base != baseRead
    || Tip(w.clone.fetched, baseRead) != Tip(w.branches, baseRead)
    || !(rules.history(w.clone.tree) <= rules.history(w.gh.head))
  }

  lemma OnlyBlind(rules: Rules, w: World, baseRead: string, behindRead: Option<nat>)
    requires behindRead.Some? ==> behindRead == BehindRef(rules, w.clone, baseRead) == Some(0)
    requires Missing(rules, View(w)) != {}
    ensures Blind(rules, w, baseRead, behindRead)
  {
    if !Blind(rules, w, baseRead, behindRead) {
      ZeroOverlooks(rules, w);
    }
  }

  /** Every owner's merge, in every run. Its call read head and base by its action `h`, fetched, or failed to, by `f`,
      and counted by `k`. If a step since the count touched head or base, the merge was behind its base by exactly the
      commits the head lacked after the last such step. If none did, it was behind by exactly the commits the count
      overlooked, or, if it could not read the base or read another than the pull request had by then, by those the head
      lacked anyway. In that case it was behind only if the count was blind: the base unreadable, another by then, or
      not fetched as it stood, or commits in the worktree that the head did not have. A base not fetched as it stood
      takes a failed fetch, or branches that moved between fetch and count. And the merge landed on another base than
      the one read if and only if the last touch since `h` left it there. */
  lemma OwnerMergesBaseExactly(rules: Rules, start: World, actions: seq<Action>, a: Action)
    returns (h: nat, f: nat, k: nat)
    requires Initial(start) && NewOwnerMerge(rules, RunOf(rules, start, actions), a)
    ensures h < f < k < |actions| && a.ByCall? && actions[h] == ByCall(a.id, CallHead)
    ensures actions[f].ByCall? && actions[f].id == a.id && actions[f].call.CallFetch?
    ensures actions[k].ByCall? && actions[k].id == a.id && actions[k].call.CallBase?
    ensures var m := Last(Next(rules, RunOf(rules, start, actions), a).merges);
            var read, counted := RunOf(rules, start, actions[..h]), RunOf(rules, start, actions[..k]);
            var touched := LastTouch(rules, counted, actions[k..]);
            && m.OwnerMerge? && m.baseRead == read.gh.base
            && m.behindRead ==
                 (if actions[k].call.readable then BehindRef(rules, counted.clone, m.baseRead) else None)
            && m.behindThen == |if touched.Some? then Missing(rules, touched.value)
                                else if m.behindRead.Some? && counted.gh.base == m.baseRead
                                then Overlooked(rules, counted, m.baseRead)
                                else Missing(rules, View(counted))|
            && (touched.None? && m.behindThen > 0 ==> Blind(rules, counted, m.baseRead, m.behindRead))
            && (actions[f].call.ok && (forall j :: f < j < k ==> !MovesBranches(actions[j])) ==>
                  counted.clone.fetched == counted.branches)
            && (m.baseThen != m.baseRead <==> Now(LastTouch(rules, read, actions[h..]), View(read)).base != m.baseRead)
  {
    hide RunOf, LastTouch, NextCall, Framed, Initial, Missing, Overlooked, Blind, BehindRef, MovesBranches;
    var w := RunOf(rules, start, actions);
    StepIsFramed(rules, w, a);
    MergesForOwner(w, a, Next(rules, w, a));
    assert Next(rules, w, a) == NextCall(rules, w, a.id, a.call);
    MergeIsFromCounted(rules, w, a.id, a.call.mergeSha);
    assert start.calls == map[] by { InitialHasNoCalls(start); }
    var c := w.calls[a.id];
    h, f, k := CountedSince(rules, start, actions, a.id, c);
    var counted := RunOf(rules, start, actions[..k]);
    RunContinues(rules, start, actions, k);
    RunContinues(rules, start, actions, h);
    ViewIsLastTouch(rules, counted, actions[k..]);
    ViewIsLastTouch(rules, RunOf(rules, start, actions[..h]), actions[h..]);
    if c.behind.Some? && counted.gh.base == c.base { ZeroOverlooks(rules, counted); }
    if Missing(rules, View(counted)) != {} { OnlyBlind(rules, counted, c.base, c.behind); }
    if actions[f].call.ok && forall j :: f < j < k ==> !MovesBranches(actions[j]) {
      var fetched, window := RunOf(rules, start, actions[..f + 1]), actions[f + 1..k];
      assert actions[..k][..f + 1] == actions[..f + 1] && actions[..k][f + 1..] == window;
      RunContinues(rules, start, actions[..k], f + 1);
      FetchedStaysCurrent(rules, fetched, window);
    }
  }

  lemma InitialHasNoCalls(start: World)
    requires Initial(start)
    ensures start.calls == map[]
  {
  }

  // --- merges behind their base --------------------------------------------------------------------

  /** A run that reaches a decided call ends in this merge. */
  lemma MergesThen(rules: Rules, start: World, before: seq<Action>, ev: CiEvidence, fetches: bool, readable: bool,
      mergeSha: Sha)
    requires var w := RunOf(rules, start, before);
             && Ready(w, ev) && GreenRollup(rules, w, ev) && w.merges == []
             && Counted(rules, w, fetches, readable) in {None, Some(0)}
    ensures var w := RunOf(rules, start, before);
            RunOf(rules, start, before + ToDecision(ev) + ToMerge(fetches, readable, mergeSha)).merges ==
            [OwnerMerge(ev.head, ev.head, w.row, ev, false, w.gh.base, Counted(rules, w, fetches, readable), w.gh.base,
                Behind(rules, w))]
  {
    hide RunOf, Next, ContextsGreen, ProtectedContexts, PlainPolicy, Counted, Behind, ToDecision, ToMerge;
    var w := RunOf(rules, start, before);
    DecisionRuns(rules, w, ev);
    RunConcat(rules, start, before, ToDecision(ev));
    var w1 := RunOf(rules, w, ToDecision(ev));
    SameCount(rules, w, w1, fetches, readable);
    MergingRuns(rules, w1, w.row, ev, fetches, readable, mergeSha);
    RunConcat(rules, start, before + ToDecision(ev), ToMerge(fetches, readable, mergeSha));
  }

  ghost predicate MergedBehind(merges: seq<Merge>, behindRead: Option<nat>, behind: nat) {
    && |merges| == 1 && merges[0].OwnerMerge? && merges[0].baseThen == merges[0].baseRead
    && merges[0].behindRead == behindRead && merges[0].behindThen == behind
  }

  /** The base advances between the count and the merge. */
  function AdvanceThenMerge(later: map<string, Sha>, mergeSha: Sha): seq<Action> {
    [ByCall(0, CallFetch(true)), ByCall(0, CallBase(true)), ByEnv(BranchesChange(later)),
     ByCall(0, CallMerge(mergeSha))]
  }

  lemma AdvanceRuns(rules: Rules, w: World, row: IssueRow, ev: CiEvidence, later: map<string, Sha>, mergeSha: Sha)
    requires w.calls == map[0 := Decided(row, ev.head, w.gh.base, false, ev)] && w.gh.head == ev.head && !w.gh.merged
    requires w.merges == [] && Counted(rules, w, true, true) == Some(0)
    ensures MergedBehind(RunOf(rules, w, AdvanceThenMerge(later, mergeSha)).merges, Some(0),
                |Lacking(rules, ev.head, Tip(later, w.gh.base))|)
  {
    hide Next, Approved, StartsWith, Allowed, BehindRef, Lacking;
    Run4(rules, w, ByCall(0, CallFetch(true)), ByCall(0, CallBase(true)), ByEnv(BranchesChange(later)),
        ByCall(0, CallMerge(mergeSha)));
    assert forall x, y: Call :: map[0 := x][0 := y] == map[0 := y];
    NextIsCall(rules, w, 0, CallFetch(true));
    var w1 := w.(calls := map[0 := Fetched(row, ev.head, w.gh.base, false, ev)], clone := AfterFetch(w, true));
    NextIsCall(rules, w1, 0, CallBase(true));
    var w2 := w1.(calls := map[0 := BaseRead(row, ev.head, w.gh.base, false, ev, Some(0))]);
    NextIsEnv(rules, w2, BranchesChange(later));
    NextIsCall(rules, w2.(branches := later), 0, CallMerge(mergeSha));
  }

  lemma NextIsEnv(rules: Rules, w: World, s: EnvStep)
    ensures Next(rules, w, ByEnv(s)) == NextEnv(w, s)
  {
    hide NextEnv;
  }

  /** The base advances, the tick merges it in the worktree, and the push fails. */
  function FailToPush(later: map<string, Sha>, merge: Sha): seq<Action> {
    [ByEnv(BranchesChange(later)), ByEnv(CloneFetches), ByTick(TakeUp), ByTick(ReadPr)]
    + [ByTick(FindBehind), ByTick(MergeBase(merge)), ByTick(LetGo)]
  }

  lemma FailingToPushRuns(rules: Rules, w: World, ev: CiEvidence, later: map<string, Sha>, merge: Sha)
    requires Ready(w, ev) && w.gh.head == ev.head == w.clone.tree && w.gh.base in later
    requires rules.history(later[w.gh.base]) - rules.history(w.gh.head) != {}
    requires MergesTo(rules, w.gh.head, later[w.gh.base], merge)
    ensures RunOf(rules, w, FailToPush(later, merge)) ==
            w.(branches := later, clone := Clone(later, w.clone.locals, merge))
  {
    hide Next, MergesTo;
    var w1 := w.(branches := later, clone := w.clone.(fetched := later));
    var w2 := w1.(tick := SawPr(w.row, w.gh));
    Run4(rules, w, ByEnv(BranchesChange(later)), ByEnv(CloneFetches), ByTick(TakeUp), ByTick(ReadPr));
    NextIsEnv(rules, w, BranchesChange(later));
    NextIsEnv(rules, w.(branches := later), CloneFetches);
    TakeUpStep(rules, w1);
    ReadPrStep(rules, w1.(tick := Took(w.row)));
    var rest := [ByTick(FindBehind), ByTick(MergeBase(merge)), ByTick(LetGo)];
    RunConcat(rules, w, [ByEnv(BranchesChange(later)), ByEnv(CloneFetches), ByTick(TakeUp), ByTick(ReadPr)], rest);
    Run3(rules, w2, ByTick(FindBehind), ByTick(MergeBase(merge)), ByTick(LetGo));
    UpdateStep(rules, w2, FindBehind);
    var w3 := w1.(tick := Outdated(w.row, w.gh.base));
    UpdateStep(rules, w3, MergeBase(merge));
    LetGoStep(rules, w1.(clone := w1.clone.(tree := merge), tick := Updated(w.row)));
  }

  lemma LetGoStep(rules: Rules, w: World)
    ensures Next(rules, w, ByTick(LetGo)) == w.(tick := Idle)
  {
    hide NextClaim, NextAdvance, NextUpdate, NextPassed, NextFound;
  }

  /** What the base gains, and how far it gets ahead. */
  function Later(start: World, tip: Sha): map<string, Sha> {
    start.branches[start.gh.base := tip]
  }

  function Gained(rules: Rules, start: World, tip: Sha): nat {
    |rules.history(tip) - rules.history(start.gh.head)|
  }

  lemma AdvanceMergesBehind(rules: Rules, start: World, ev: CiEvidence, tip: Sha, mergeSha: Sha)
    requires Initial(start) && GreenRollup(rules, start, ev) && Counted(rules, start, true, true) == Some(0)
    ensures var actions := ToReady(ev) + ToDecision(ev) + AdvanceThenMerge(Later(start, tip), mergeSha);
            MergedBehind(RunOf(rules, start, actions).merges, Some(0), Gained(rules, start, tip))
  {
    hide RunOf, Next, ContextsGreen, ProtectedContexts, PlainPolicy, ToReady, ToDecision, AdvanceThenMerge;
    ReadyRuns(rules, start, ev);
    var w := RunOf(rules, start, ToReady(ev));
    DecisionRuns(rules, w, ev);
    var w1 := RunOf(rules, w, ToDecision(ev));
    RunConcat(rules, start, ToReady(ev), ToDecision(ev));
    RunConcat(rules, start, ToReady(ev) + ToDecision(ev), AdvanceThenMerge(Later(start, tip), mergeSha));
    AdvanceRuns(rules, w1, w.row, ev, Later(start, tip), mergeSha);
  }

  /** The base has advanced before the owner calls. */
  function ToOutdated(start: World, ev: CiEvidence, tip: Sha): seq<Action> {
    ToReady(ev) + [ByEnv(BranchesChange(Later(start, tip)))]
  }

  lemma BlindMergesBehind(rules: Rules, start: World, ev: CiEvidence, tip: Sha, fetches: bool, readable: bool,
      mergeSha: Sha)
    requires Initial(start) && GreenRollup(rules, start, ev)
    requires !readable || (!fetches && Counted(rules, start, false, true) == Some(0))
    ensures var actions := ToOutdated(start, ev, tip) + ToDecision(ev) + ToMerge(fetches, readable, mergeSha);
            MergedBehind(RunOf(rules, start, actions).merges, if readable then Some(0) else None,
                Gained(rules, start, tip))
  {
    hide RunOf, Next, ContextsGreen, ProtectedContexts, PlainPolicy, ToReady, ToDecision, ToMerge;
    ReadyRuns(rules, start, ev);
    RunSnoc(rules, start, ToReady(ev), ByEnv(BranchesChange(Later(start, tip))));
    NextIsEnv(rules, RunOf(rules, start, ToReady(ev)), BranchesChange(Later(start, tip)));
    MergesThen(rules, start, ToOutdated(start, ev, tip), ev, fetches, readable, mergeSha);
  }

  lemma UnpushedMergesBehind(rules: Rules, start: World, ev: CiEvidence, tip: Sha, merge: Sha, mergeSha: Sha)
    requires Initial(start) && GreenRollup(rules, start, ev) && Gained(rules, start, tip) > 0
    requires start.clone.tree == start.gh.head && MergesTo(rules, start.gh.head, tip, merge)
    ensures var actions :=
              ToReady(ev) + FailToPush(Later(start, tip), merge) + ToDecision(ev) + ToMerge(true, true, mergeSha);
            MergedBehind(RunOf(rules, start, actions).merges, Some(0), Gained(rules, start, tip))
  {
    hide RunOf, Next, ContextsGreen, ProtectedContexts, PlainPolicy, ToReady, ToDecision, ToMerge, FailToPush;
    ReadyRuns(rules, start, ev);
    FailingToPushRuns(rules, RunOf(rules, start, ToReady(ev)), ev, Later(start, tip), merge);
    RunConcat(rules, start, ToReady(ev), FailToPush(Later(start, tip), merge));
    MergesThen(rules, start, ToReady(ev) + FailToPush(Later(start, tip), merge), ev, true, true, mergeSha);
  }

  /** Each way of merging behind a base that is still the one read happens, by any number of commits: for any rollup
      whose gates are green, from its first tracking, the base advances after the count; or before it, and then the base
      cannot be read, or the fetch fails, or the tick has merged the base in the worktree and could not push. */
  lemma OwnersMergeBehindTheirBase(rules: Rules, start: World, ev: CiEvidence, tip: Sha, merge: Sha, mergeSha: Sha)
    requires Initial(start) && GreenRollup(rules, start, ev) && Gained(rules, start, tip) > 0
    ensures var behind, later := Gained(rules, start, tip), Later(start, tip);
            var advance := ToReady(ev) + ToDecision(ev) + AdvanceThenMerge(later, mergeSha);
            var unread := ToOutdated(start, ev, tip) + ToDecision(ev) + ToMerge(true, false, mergeSha);
            var unfetched := ToOutdated(start, ev, tip) + ToDecision(ev) + ToMerge(false, true, mergeSha);
            var unpushed := ToReady(ev) + FailToPush(later, merge) + ToDecision(ev) + ToMerge(true, true, mergeSha);
            && (Counted(rules, start, true, true) == Some(0) ==>
                  MergedBehind(RunOf(rules, start, advance).merges, Some(0), behind))
            && MergedBehind(RunOf(rules, start, unread).merges, None, behind)
            && (Counted(rules, start, false, true) == Some(0) ==>
                  MergedBehind(RunOf(rules, start, unfetched).merges, Some(0), behind))
            && (start.clone.tree == start.gh.head && MergesTo(rules, start.gh.head, tip, merge) ==>
                  MergedBehind(RunOf(rules, start, unpushed).merges, Some(0), behind))
  {
    hide RunOf, Initial, GreenRollup, ToReady, ToDecision, ToMerge, AdvanceThenMerge, FailToPush, ToOutdated, Counted,
         MergedBehind, MergesTo;
    if Counted(rules, start, true, true) == Some(0) { AdvanceMergesBehind(rules, start, ev, tip, mergeSha); }
    BlindMergesBehind(rules, start, ev, tip, true, false, mergeSha);
    if Counted(rules, start, false, true) == Some(0) {
      BlindMergesBehind(rules, start, ev, tip, false, true, mergeSha);
    }
    if start.clone.tree == start.gh.head && MergesTo(rules, start.gh.head, tip, merge) {
      UnpushedMergesBehind(rules, start, ev, tip, merge, mergeSha);
    }
  }
}
