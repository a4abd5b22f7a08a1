/** The trail of merges: every move into MERGED, and the audit that goes with it. */
module MergeAudit {
  import opened Prelude
  import opened Lifecycle
  import opened StateStore
  import opened MergePolicy
  import opened MergeProtocol
  import opened ProtocolRuns
  import opened StepFrames
  import MergeSafety

  // --- every move into MERGED is entered ----------------------------------------------------------

  /** The step leaves the entries alone and does not move into MERGED, or does both. */
  ghost predicate EntersWith(w: World, after: World) {
    if after.entries == w.entries then after.row.state == MERGED ==> w.row.state == MERGED
    else |after.entries| == |w.entries| + 1 && after.entries[..|w.entries|] == w.entries
         && w.row.state == READY_FOR_OWNER && after.row.state == MERGED
  }

  lemma MoveEnters(w: World, mid: World, to: State, validated: Option<Sha>, seen: nat)
    requires mid.row.state == w.row.state && mid.entries == w.entries && to != MERGED
    ensures EntersWith(w, Try(mid, to)) && EntersWith(w, TryWith(mid, to, validated))
    ensures EntersWith(w, Dispatch(mid, seen, to, validated))
    ensures EntersWith(w, Ordered(mid, to, validated))
  {
    hide Try, TryWith, Dispatch, Ordered;
    TryEnters(w, mid, to, validated);
    DispatchEnters(w, mid, to, validated, seen);
  }

  lemma TryEnters(w: World, mid: World, to: State, validated: Option<Sha>)
    requires mid.row.state == w.row.state && mid.entries == w.entries && to != MERGED
    ensures EntersWith(w, Try(mid, to)) && EntersWith(w, TryWith(mid, to, validated))
  {
    hide Allowed;
  }

  lemma DispatchEnters(w: World, mid: World, to: State, validated: Option<Sha>, seen: nat)
    requires mid.row.state == w.row.state && mid.entries == w.entries && to != MERGED
    ensures EntersWith(w, Dispatch(mid, seen, to, validated)) && EntersWith(w, Ordered(mid, to, validated))
  {
    hide Allowed;
  }

  lemma ClaimEnters(rules: Rules, w: World, s: TickStep)
    ensures EntersWith(w, NextClaim(rules, w, s))
  {
    hide Allowed, AttemptsLeft;
  }

  lemma AdvanceEnters(rules: Rules, w: World, s: TickStep)
    ensures EntersWith(w, NextAdvance(rules, w, s))
  {
    hide Allowed, AttemptsLeft;
  }

  lemma PassedEnters(rules: Rules, w: World, s: TickStep)
    ensures EntersWith(w, NextPassed(rules, w, s))
  {
    hide Allowed, JoinedBranch, PassesReview;
  }

  lemma OnlyReadyMerges(s: State)
    ensures Allowed(s, MERGED) <==> s == READY_FOR_OWNER
  {
  }

  lemma EntryEnters(w: World, mid: World, e: Entry, validated: Option<Sha>)
    requires Allowed(w.row.state, MERGED) && mid.row == w.row && mid.entries == w.entries + [e]
    ensures EntersWith(w, TryWith(mid, MERGED, validated))
  {
    hide Allowed;
    OnlyReadyMerges(w.row.state);
  }

  lemma RecordFoundEnters(w: World, reconciling: bool)
    ensures EntersWith(w, RecordFound(w, reconciling))
  {
    hide Try, TryWith, Allowed;
    var idle := w.(tick := Idle);
    MoveEnters(w, idle, BLOCKED, None, 0);
    if w.tick.Audited? {
      MoveEnters(w, idle.(smoking := true), INTEGRATED, w.tick.found, 0);
      if Allowed(w.row.state, MERGED) {
        EntryEnters(w, idle.(entries := w.entries + [FoundMerged(w.tick.audit)]), FoundMerged(w.tick.audit),
            w.tick.found);
      }
    }
  }

  lemma FoundEnters(rules: Rules, w: World, s: TickStep)
    ensures EntersWith(w, NextFound(rules, w, s))
  {
    hide RecordFound, ContextsGreen, ProtectedContexts;
    if s.RecordFoundMerge? { RecordFoundEnters(w, s.reconciling); }
  }

  lemma TickEnters(rules: Rules, w: World, s: TickStep)
    ensures EntersWith(w, NextTick(rules, w, s))
  {
    hide NextClaim, NextAdvance, NextUpdate, NextPassed, NextFound, Try;
    MoveEnters(w, w.(tick := Idle), BLOCKED, None, 0);
    ClaimEnters(rules, w, s);
    AdvanceEnters(rules, w, s);
    PassedEnters(rules, w, s);
    FoundEnters(rules, w, s);
    UpdateTouches(rules, w, s);
  }

  lemma WorkerEnters(rules: Rules, w: World, s: WorkerStep)
    ensures EntersWith(w, NextWorker(rules, w, s))
  {
    hide Allowed, AttemptsLeft;
  }

  lemma ReviewerEnters(rules: Rules, w: World, s: ReviewStep)
    ensures EntersWith(w, NextReviewer(rules, w, s))
  {
    hide Allowed, AttemptsLeft;
  }

  lemma CallEnters(rules: Rules, w: World, id: int, s: CallStep)
    ensures EntersWith(w, NextCall(rules, w, id, s))
  {
    hide Approved, StartsWith;
  }

  lemma OrderEnters(w: World, s: LeadStep)
    ensures EntersWith(w, NextOrder(w, s))
  {
    hide Allowed;
  }

  /** Whatever the state of the world, a step moves the Issue into MERGED exactly when it adds an entry, one, and the
      Issue was READY_FOR_OWNER. */
  lemma MovesIntoMergedAreEntered(rules: Rules, w: World, a: Action)
    ensures EntersWith(w, Next(rules, w, a))
  {
    hide NextTick, NextWorker, NextReviewer, NextCall, NextOrder, StartsWith;
    match a
    case ByTick(s) => TickEnters(rules, w, s);
    case ByWorker(s) => WorkerEnters(rules, w, s);
    case ByReviewer(s) => ReviewerEnters(rules, w, s);
    case ByCall(id, s) => CallEnters(rules, w, id, s);
    case ByLead(s) => OrderEnters(w, s);
    case ByEnv(_) =>
  }

  // --- merges found outside -----------------------------------------------------------------------

  ghost predicate Sound(rules: Rules, a: Audit) {
    && (a.ev.Some? ==> a.ev.value.head == a.head)
    && (a.bypass <==> a.ev.None? || !ContextsGreen(a.ev.value, ProtectedContexts(rules.policy)))
  }

  /** The audit at `i` is a finished one of a merge found outside. */
  ghost predicate Finished(rules: Rules, audits: seq<Audit>, i: nat) {
    i < |audits| && audits[i].entry.None? && Sound(rules, audits[i]) && (audits[i].bypass ==> audits[i].admin)
  }

  ghost predicate Fresh(entries: seq<Entry>, i: nat) {
    forall k :: 0 <= k < |entries| && entries[k].FoundMerged? ==> entries[k].audit != i
  }

  /** Every merge found outside has a finished audit, and one of its own; so has the one the tick is about to enter. */
  ghost predicate FoundOk(rules: Rules, w: World) {
    && (forall k :: 0 <= k < |w.entries| && w.entries[k].FoundMerged? ==> Finished(rules, w.audits, w.entries[k].audit))
    && (forall j, k :: 0 <= j < k < |w.entries| && w.entries[j].FoundMerged? && w.entries[k].FoundMerged? ==>
          w.entries[j].audit != w.entries[k].audit)
    && (w.tick.Auditing? ==>
          && w.tick.audit < |w.audits| && w.audits[w.tick.audit].entry.None? && Sound(rules, w.audits[w.tick.audit])
          && Fresh(w.entries, w.tick.audit))
    && (w.tick.Audited? ==> Finished(rules, w.audits, w.tick.audit) && Fresh(w.entries, w.tick.audit))
  }

  lemma AuditFoundKeeps(rules: Rules, w: World, ev: Option<CiEvidence>, found: Option<Sha>)
    requires FoundOk(rules, w)
    ensures FoundOk(rules, AuditFound(rules, w, ev, found))
  {
    hide ContextsGreen, ProtectedContexts;
  }

  lemma ReportFoundKeeps(rules: Rules, w: World)
    requires FoundOk(rules, w)
    ensures FoundOk(rules, ReportFound(w))
  {
    hide ContextsGreen, ProtectedContexts;
  }

  lemma RecordFoundKeeps(rules: Rules, w: World, reconciling: bool)
    requires FoundOk(rules, w)
    ensures FoundOk(rules, RecordFound(w, reconciling))
  {
    hide Sound, Allowed;
  }

  lemma FoundKeeps(rules: Rules, w: World, s: TickStep)
    requires FoundOk(rules, w)
    ensures FoundOk(rules, NextFound(rules, w, s))
  {
    hide FoundOk, AuditFound, ReportFound, RecordFound;
    match s
    case AuditFoundMerge(ev, found) => AuditFoundKeeps(rules, w, ev, found);
    case RecordBypass => ReportFoundKeeps(rules, w);
    case RecordFoundMerge(reconciling) => RecordFoundKeeps(rules, w, reconciling);
    case _ =>
  }

  /** The step writes no audit and no entry, and is not about an audit. */
  ghost predicate Silent(w: World, after: World) {
    && after.audits == w.audits && after.entries == w.entries
    && (after.tick == w.tick || !(after.tick.Auditing? || after.tick.Audited?))
    && (forall m :: m in w.merges ==> m in after.merges)
  }

  lemma SilentKeepsFound(rules: Rules, w: World, after: World)
    requires FoundOk(rules, w) && Silent(w, after)
    ensures FoundOk(rules, after)
  {
    hide Sound;
  }

  /** Only these steps write entries or audits. */
  predicate Writes(a: Action) {
    (a.ByTick? && FindsMerge(a.tick)) || (a.ByCall? && (a.call.CallRecord? || a.call.CallAudit?))
  }

  lemma OthersAreSilent(w: World, a: Action, after: World)
    requires Framed(w, a, after) && !Writes(a)
    ensures Silent(w, after)
    ensures !a.ByCall? ==> after.calls == if a == ByEnv(RemoteCrash) then map[] else w.calls
  {
    hide TickFrame, CallFrame, LeadFrame, Silent, NextEnv;
    match a
    case ByTick(s) => TicksAreSilent(w, s, after);
    case ByCall(id, s) => CallsAreSilent(w, id, s, after);
    case ByLead(s) => LeadIsSilent(w, s, after);
    case _ => ThreadsAreSilent(w, a, after);
  }

  lemma LeadIsSilent(w: World, s: LeadStep, after: World)
    requires LeadFrame(w, s, after)
    ensures Silent(w, after) && after.calls == w.calls
  {
    hide OnBranches;
  }

  lemma ThreadsAreSilent(w: World, a: Action, after: World)
    requires Framed(w, a, after) && !a.ByTick? && !a.ByCall? && !a.ByLead?
    ensures Silent(w, after) && after.calls == if a == ByEnv(RemoteCrash) then map[] else w.calls
  {
    hide TickFrame, CallFrame, LeadFrame;
  }

  lemma CallsAreSilent(w: World, id: int, s: CallStep, after: World)
    requires CallFrame(w, id, s, after) && !s.CallRecord? && !s.CallAudit?
    ensures Silent(w, after)
  {
    hide Beside;
    if after.merges != w.merges { assert after.merges == w.merges + [Last(after.merges)]; }
  }

  lemma TicksAreSilent(w: World, s: TickStep, after: World)
    requires TickFrame(w, s, after) && !FindsMerge(s)
    ensures Silent(w, after) && after.calls == w.calls
  {
    if after.merges != w.merges { assert after.merges == w.merges + [Last(after.merges)]; }
  }

  lemma CallWritesKeepFound(rules: Rules, w: World, id: int, s: CallStep)
    requires FoundOk(rules, w) && (s.CallRecord? || s.CallAudit?)
    ensures FoundOk(rules, NextCall(rules, w, id, s))
  {
    hide Allowed, Approved, StartsWith, Sound;
  }

  lemma StepKeepsFound(rules: Rules, w: World, a: Action)
    requires FoundOk(rules, w)
    ensures FoundOk(rules, Next(rules, w, a))
  {
    if !Writes(a) {
      hide Next, FoundOk, Framed, Silent;
      StepIsFramed(rules, w, a);
      OthersAreSilent(w, a, Next(rules, w, a));
      SilentKeepsFound(rules, w, Next(rules, w, a));
    } else if a.ByTick? {
      hide NextFound, FoundOk;
      FoundKeeps(rules, w, a.tick);
    } else {
      hide NextCall, FoundOk;
      CallWritesKeepFound(rules, w, a.id, a.call);
    }
  }

  lemma {:induction false} EveryRunKeepsFound(rules: Rules, w: World, actions: seq<Action>)
    requires FoundOk(rules, w)
    ensures FoundOk(rules, RunOf(rules, w, actions))
    decreases actions
  {
    hide FoundOk, Next;
    if actions != [] {
      StepKeepsFound(rules, w, actions[0]);
      EveryRunKeepsFound(rules, Next(rules, w, actions[0]), actions[1..]);
    }
  }

  /** In every run, a merge found outside and entered as MERGED has an audit of its own, shared with no other entry. It
      judges the head GitHub reported; it says bypass exactly when a required context was not green on that head or
      could not be read; and then the bypass was reported before the Issue moved. */
  lemma FoundMergesAreAudited(rules: Rules, start: World, actions: seq<Action>, k: nat)
    requires Initial(start) && k < |RunOf(rules, start, actions).entries|
    requires RunOf(rules, start, actions).entries[k].FoundMerged?
    ensures var w := RunOf(rules, start, actions);
            var i := w.entries[k].audit;
            && i < |w.audits| && w.audits[i].entry.None?
            && (forall j :: 0 <= j < |w.entries| && j != k && w.entries[j].FoundMerged? ==> w.entries[j].audit != i)
            && var a := w.audits[i];
               && (a.ev.Some? ==> a.ev.value.head == a.head)
               && (a.bypass <==> a.ev.None? || !ContextsGreen(a.ev.value, ProtectedContexts(rules.policy)))
               && (a.bypass ==> a.admin)
  {
    hide Next;
    EveryRunKeepsFound(rules, start, actions);
  }

  // --- the owner's merges -------------------------------------------------------------------------

  ghost predicate HasAudit(audits: seq<Audit>, k: nat) {
    exists i :: 0 <= i < |audits| && audits[i].entry == Some(k)
  }

  ghost predicate IsOwners(w: World, k: nat) {
    k < |w.entries| && w.entries[k].ByOwner? && w.entries[k].merge in w.merges && w.entries[k].merge.OwnerMerge?
  }

  /** An audit of an owner's merge says what the merge was decided on, and there is one at most. */
  ghost predicate AuditsOk(w: World) {
    && (forall k :: 0 <= k < |w.entries| && w.entries[k].ByOwner? ==> IsOwners(w, k))
    && (forall i :: 0 <= i < |w.audits| && w.audits[i].entry.Some? ==>
          var a := w.audits[i];
          IsOwners(w, a.entry.value) && var m := w.entries[a.entry.value].merge;
              a.head == m.sha && a.ev == Some(m.ev) && !a.bypass)
    && (forall i, j :: 0 <= i < j < |w.audits| && w.audits[i].entry.Some? ==> w.audits[j].entry != w.audits[i].entry)
  }

  /** A call that still owes an audit is the only one to owe it. */
  ghost predicate OwesOk(w: World) {
    && (forall id :: id in w.calls && w.calls[id].MergedOnGitHub? ==>
          w.calls[id].merge in w.merges && w.calls[id].merge.OwnerMerge?)
    && (forall id :: id in w.calls && w.calls[id].Recorded? ==>
          IsOwners(w, w.calls[id].entry) && !HasAudit(w.audits, w.calls[id].entry))
    && (forall id, jd :: id in w.calls && jd in w.calls && id != jd ==>
          w.calls[id].Recorded? && w.calls[jd].Recorded? ==> w.calls[id].entry != w.calls[jd].entry)
  }

  ghost predicate OwnersOk(w: World) {
    AuditsOk(w) && OwesOk(w)
  }

  /** No owner's entry or audit is written, no call advanced beyond GitHub; merges and other entries may come. */
  ghost predicate Unsigned(w: World, after: World) {
    && |after.entries| >= |w.entries| && after.entries[..|w.entries|] == w.entries
    && (forall k :: |w.entries| <= k < |after.entries| ==> after.entries[k].FoundMerged?)
    && |after.audits| >= |w.audits| && (forall i :: 0 <= i < |w.audits| ==> Same(w.audits[i], after.audits[i]))
    && (forall i :: |w.audits| <= i < |after.audits| ==> after.audits[i].entry.None?)
    && (forall m :: m in w.merges ==> m in after.merges)
    && (forall id :: id in after.calls && (after.calls[id].MergedOnGitHub? || after.calls[id].Recorded?) ==>
          id in w.calls && after.calls[id] == w.calls[id])
  }

  predicate Same(a: Audit, b: Audit) {
    a.entry == b.entry && a.head == b.head && a.ev == b.ev && a.bypass == b.bypass
  }

  lemma UnsignedKeeps(w: World, after: World)
    requires OwnersOk(w) && Unsigned(w, after)
    ensures OwnersOk(after)
  {
    forall k | 0 <= k < |after.entries| && after.entries[k].ByOwner?
      ensures IsOwners(after, k)
    {
      assert IsOwners(w, k);
    }
    forall k: nat | IsOwners(w, k)
      ensures IsOwners(after, k)
    {
      assert after.entries[..|w.entries|][k] == w.entries[k];
    }
    forall i | 0 <= i < |after.audits| && after.audits[i].entry.Some?
      ensures i < |w.audits| && Same(w.audits[i], after.audits[i]) {}
    forall k: nat | HasAudit(after.audits, k) ensures HasAudit(w.audits, k) {
      var i :| 0 <= i < |after.audits| && after.audits[i].entry == Some(k);
      assert w.audits[i].entry == Some(k);
    }
  }

  lemma SilentIsUnsigned(w: World, after: World)
    requires Silent(w, after) && (after.calls == w.calls || after.calls == map[])
    ensures Unsigned(w, after)
  {
  }

  lemma AuditFoundIsUnsigned(rules: Rules, w: World, ev: Option<CiEvidence>, found: Option<Sha>)
    ensures Unsigned(w, AuditFound(rules, w, ev, found)) && Unsigned(w, ReportFound(w))
  {
    hide ContextsGreen, ProtectedContexts;
  }

  lemma MoveIsUnsigned(w: World, mid: World, to: State, validated: Option<Sha>)
    requires Unsigned(w, mid)
    ensures Unsigned(w, Try(mid, to)) && Unsigned(w, TryWith(mid, to, validated))
  {
    hide Allowed;
  }

  lemma RecordFoundIsUnsigned(w: World, reconciling: bool)
    ensures Unsigned(w, RecordFound(w, reconciling))
  {
    hide Allowed, Try, TryWith;
    if w.tick.Audited? {
      var idle := w.(tick := Idle);
      MoveIsUnsigned(w, idle, BLOCKED, None);
      MoveIsUnsigned(w, idle.(smoking := true), INTEGRATED, w.tick.found);
      MoveIsUnsigned(w, idle.(entries := w.entries + [FoundMerged(w.tick.audit)]), MERGED, w.tick.found);
    }
  }

  lemma FoundIsUnsigned(rules: Rules, w: World, s: TickStep)
    ensures Unsigned(w, NextFound(rules, w, s))
  {
    hide Unsigned, AuditFound, ReportFound, RecordFound;
    AuditFoundIsUnsigned(rules, w, None, None);
    match s
    case AuditFoundMerge(ev, found) => AuditFoundIsUnsigned(rules, w, ev, found);
    case RecordFoundMerge(reconciling) => RecordFoundIsUnsigned(w, reconciling);
    case RecordBypass =>
    case _ => UnsignedRefl(w);
  }

  lemma UnsignedRefl(w: World)
    ensures Unsigned(w, w)
  {
  }

  lemma EarlyCallIsUnsigned(rules: Rules, w: World, id: int, s: CallStep)
    requires !s.CallMerge? && !s.CallRecord? && !s.CallAudit?
    ensures Unsigned(w, NextCall(rules, w, id, s))
  {
    hide NextCall, Beside, CallFrame;
    CallIsFramed(rules, w, id, s);
    OthersAreSilent(w, ByCall(id, s), NextCall(rules, w, id, s));
    EarlyCallOwesNothing(rules, w, id, s);
  }

  lemma EarlyCallOwesNothing(rules: Rules, w: World, id: int, s: CallStep)
    requires !s.CallMerge? && !s.CallRecord? && !s.CallAudit?
    ensures var after := NextCall(rules, w, id, s).calls;
            forall jd :: jd in after && (after[jd].MergedOnGitHub? || after[jd].Recorded?) ==>
                jd in w.calls && after[jd] == w.calls[jd]
  {
    hide TryWith, Approved, StartsWith, BehindRef;
    MovesTouch(Drop(w, id), CI, None, 0);
  }

  lemma CallMergeKeepsOwners(rules: Rules, w: World, id: int, s: CallStep)
    requires OwnersOk(w) && s.CallMerge?
    ensures OwnersOk(NextCall(rules, w, id, s))
  {
    hide HasAudit;
  }

  lemma CallRecordKeepsOwners(rules: Rules, w: World, id: int, s: CallStep)
    requires OwnersOk(w) && s.CallRecord?
    ensures OwnersOk(NextCall(rules, w, id, s))
  {
    hide Allowed;
  }

  lemma CallAuditKeepsOwners(rules: Rules, w: World, id: int, s: CallStep)
    requires OwnersOk(w) && s.CallAudit?
    ensures OwnersOk(NextCall(rules, w, id, s))
  {
    hide Allowed;
  }

  /** Neither an owner's merge nor what is written of it. */
  predicate NotOwners(a: Action) {
    a.ByCall? ==> !a.call.CallMerge? && !a.call.CallRecord? && !a.call.CallAudit?
  }

  lemma OthersAreUnsigned(rules: Rules, w: World, a: Action)
    requires NotOwners(a)
    ensures Unsigned(w, Next(rules, w, a))
  {
    if a.ByTick? && FindsMerge(a.tick) {
      hide NextFound, Unsigned;
      FoundIsUnsigned(rules, w, a.tick);
    } else if a.ByCall? {
      hide NextCall, Unsigned;
      EarlyCallIsUnsigned(rules, w, a.id, a.call);
    } else {
      hide Next, Framed, Silent, Unsigned;
      StepIsFramed(rules, w, a);
      OthersAreSilent(w, a, Next(rules, w, a));
      SilentIsUnsigned(w, Next(rules, w, a));
    }
  }

  lemma StepKeepsOwners(rules: Rules, w: World, a: Action)
    requires OwnersOk(w)
    ensures OwnersOk(Next(rules, w, a))
  {
    if NotOwners(a) {
      hide Next, OwnersOk, Unsigned;
      OthersAreUnsigned(rules, w, a);
      UnsignedKeeps(w, Next(rules, w, a));
    } else {
      hide NextCall, OwnersOk;
      if a.call.CallMerge? {
        CallMergeKeepsOwners(rules, w, a.id, a.call);
      } else if a.call.CallRecord? {
        CallRecordKeepsOwners(rules, w, a.id, a.call);
      } else {
        CallAuditKeepsOwners(rules, w, a.id, a.call);
      }
    }
  }

  lemma {:induction false} EveryRunKeepsOwners(rules: Rules, w: World, actions: seq<Action>)
    requires OwnersOk(w)
    ensures OwnersOk(RunOf(rules, w, actions))
    decreases actions
  {
    hide OwnersOk, Next;
    if actions != [] {
      StepKeepsOwners(rules, w, actions[0]);
      EveryRunKeepsOwners(rules, Next(rules, w, actions[0]), actions[1..]);
    }
  }

  // --- exactly when an owner's merge is audited ----------------------------------------------------

  predicate AuditsAt(actions: seq<Action>, id: int, i: int) {
    && 0 <= i < |actions| && actions[i] == ByCall(id, CallAudit)
    && forall j :: 0 <= j < i ==> actions[j] != ByEnv(RemoteCrash)
  }

  /** The call writes its audit before its process dies. */
  ghost predicate Completes(actions: seq<Action>, id: int) {
    exists i :: AuditsAt(actions, id, i)
  }

  lemma CompletesStep(actions: seq<Action>, id: int)
    requires actions != []
    ensures Completes(actions, id) <==>
            || actions[0] == ByCall(id, CallAudit)
            || (actions[0] != ByEnv(RemoteCrash) && Completes(actions[1..], id))
  {
    if actions[0] == ByCall(id, CallAudit) { assert AuditsAt(actions, id, 0); }
    if actions[0] != ByEnv(RemoteCrash) && Completes(actions[1..], id) {
      var i :| AuditsAt(actions[1..], id, i);
      forall j | 0 <= j < i + 1 ensures actions[j] != ByEnv(RemoteCrash) {
        assert j > 0 ==> actions[1..][j - 1] == actions[j];
      }
      assert AuditsAt(actions, id, i + 1);
    }
    if Completes(actions, id) && actions[0] != ByCall(id, CallAudit) {
      var i :| AuditsAt(actions, id, i);
      assert forall j :: 0 <= j < i - 1 ==> actions[1..][j] == actions[j + 1];
      assert AuditsAt(actions[1..], id, i - 1);
    }
  }

  /** The entry is the owner's and no call will ever write its audit. */
  ghost predicate Orphaned(w: World, k: nat) {
    k < |w.entries| && forall id :: id in w.calls && w.calls[id].Recorded? ==> w.calls[id].entry != k
  }

  /** The audits of owners' merges grow only with a call that owes one. */
  ghost predicate Continues(w: World, after: World) {
    && |w.entries| <= |after.entries| && (forall k: nat :: HasAudit(w.audits, k) ==> HasAudit(after.audits, k))
    && (forall k: nat :: HasAudit(after.audits, k) && !HasAudit(w.audits, k) ==> !Orphaned(w, k))
    && (forall k: nat :: Orphaned(w, k) ==> Orphaned(after, k))
  }

  lemma UnsignedContinues(w: World, after: World)
    requires Unsigned(w, after)
    ensures Continues(w, after)
  {
    forall k: nat | HasAudit(w.audits, k) ensures HasAudit(after.audits, k) {
      var i :| 0 <= i < |w.audits| && w.audits[i].entry == Some(k);
      assert after.audits[i].entry == Some(k);
    }
    forall k: nat | HasAudit(after.audits, k) ensures HasAudit(w.audits, k) {
      var i :| 0 <= i < |after.audits| && after.audits[i].entry == Some(k);
      assert w.audits[i].entry == Some(k);
    }
  }

  lemma LateCallContinues(rules: Rules, w: World, id: int, s: CallStep)
    requires s.CallMerge? || s.CallRecord?
    ensures Continues(w, NextCall(rules, w, id, s))
  {
    hide Allowed, HasAudit;
  }

  lemma CallAuditContinues(rules: Rules, w: World, id: int)
    ensures Continues(w, NextCall(rules, w, id, CallAudit))
    ensures OwnersOk(w) && id in w.calls && w.calls[id].Recorded? ==>
        HasAudit(NextCall(rules, w, id, CallAudit).audits, w.calls[id].entry)
  {
    var after := NextCall(rules, w, id, CallAudit);
    if after != w {
      var n := |w.audits|;
      assert after.audits[n].entry == Some(w.calls[id].entry);
      forall k: nat | HasAudit(w.audits, k) ensures HasAudit(after.audits, k) {
        var i :| 0 <= i < |w.audits| && w.audits[i].entry == Some(k);
        assert after.audits[i].entry == Some(k);
      }
      forall k: nat | HasAudit(after.audits, k) && k != w.calls[id].entry ensures HasAudit(w.audits, k) {
        var i :| 0 <= i < |after.audits| && after.audits[i].entry == Some(k);
        assert w.audits[i].entry == Some(k);
      }
    }
  }

  lemma StepContinues(rules: Rules, w: World, a: Action)
    ensures Continues(w, Next(rules, w, a))
  {
    if NotOwners(a) {
      hide Next, Unsigned, Continues;
      OthersAreUnsigned(rules, w, a);
      UnsignedContinues(w, Next(rules, w, a));
    } else {
      hide NextCall, Continues;
      if a.call.CallAudit? { CallAuditContinues(rules, w, a.id); } else { LateCallContinues(rules, w, a.id, a.call); }
    }
  }

  /** A call that owes an audit goes on owing it until it writes it or its process dies. */
  lemma OwingGoesOn(rules: Rules, w: World, a: Action, id: int)
    requires id in w.calls && w.calls[id].Recorded? && a != ByCall(id, CallAudit) && a != ByEnv(RemoteCrash)
    ensures id in Next(rules, w, a).calls && Next(rules, w, a).calls[id] == w.calls[id]
  {
    if a.ByCall? && a.id == id {
      hide Allowed, Approved, StartsWith, TryWith, NextTick, NextWorker, NextReviewer, NextOrder, NextBranches;
    } else {
      hide Next, TickFrame, OnBranches;
      StepIsFramed(rules, w, a);
    }
  }

  lemma {:induction false} OrphansStay(rules: Rules, w: World, k: nat, rest: seq<Action>)
    requires Orphaned(w, k) && !HasAudit(w.audits, k)
    ensures !HasAudit(RunOf(rules, w, rest).audits, k)
    decreases rest
  {
    hide Next, Orphaned, HasAudit;
    if rest != [] {
      StepContinues(rules, w, rest[0]);
      OrphansStay(rules, Next(rules, w, rest[0]), k, rest[1..]);
    }
  }

  lemma {:induction false} AuditsStay(rules: Rules, w: World, k: nat, rest: seq<Action>)
    requires HasAudit(w.audits, k)
    ensures HasAudit(RunOf(rules, w, rest).audits, k)
    decreases rest
  {
    hide Next, HasAudit;
    if rest != [] {
      StepContinues(rules, w, rest[0]);
      AuditsStay(rules, Next(rules, w, rest[0]), k, rest[1..]);
    }
  }

  lemma CrashOrphans(rules: Rules, w: World, k: nat)
    requires k < |w.entries|
    ensures var after := Next(rules, w, ByEnv(RemoteCrash)); Orphaned(after, k) && after.audits == w.audits
  {
    hide NextTick, NextWorker, NextReviewer, NextCall, NextOrder, NextBranches;
  }

  lemma {:induction false} OwedAuditComes(rules: Rules, w: World, id: int, rest: seq<Action>)
    requires OwnersOk(w) && id in w.calls && w.calls[id].Recorded?
    ensures HasAudit(RunOf(rules, w, rest).audits, w.calls[id].entry) <==> Completes(rest, id)
    decreases rest
  {
    hide Next, HasAudit, Completes, Orphaned;
    var k := w.calls[id].entry;
    assert k < |w.entries| && !HasAudit(w.audits, k) by { assert OwesOk(w); }
    if rest == [] {
      NothingCompletes(id);
    } else {
      var after := Next(rules, w, rest[0]);
      CompletesStep(rest, id);
      StepKeepsOwners(rules, w, rest[0]);
      if rest[0] == ByCall(id, CallAudit) {
        CallAuditContinues(rules, w, id);
        NextIsCall(rules, w, id, CallAudit);
        AuditsStay(rules, after, k, rest[1..]);
      } else if rest[0] == ByEnv(RemoteCrash) {
        CrashOrphans(rules, w, k);
        OrphansStay(rules, after, k, rest[1..]);
      } else {
        OwingGoesOn(rules, w, rest[0], id);
        OwedAuditComes(rules, after, id, rest[1..]);
      }
    }
  }

  lemma NothingCompletes(id: int)
    ensures !Completes([], id)
  {
  }

  /** The owner's merge is entered first and audited by a later transaction of the same call. In every continuation of
      every run, the audit exists if and only if the call writes it before its process dies; and what an audit of an
      owner's merge says is right: it judges the merged SHA on the evidence the merge was decided on, and every
      protected context was green on it, as "no bypass" claims. */
  lemma OwnerMergesAreAuditedExactly(rules: Rules, start: World, before: seq<Action>, id: int, rest: seq<Action>)
    requires Initial(start)
    requires var w := RunOf(rules, start, before); id in w.calls && w.calls[id].Recorded?
    ensures var k := RunOf(rules, start, before).calls[id].entry;
            var after := RunOf(rules, start, before + rest);
            && (HasAudit(after.audits, k) <==> Completes(rest, id))
            && (forall i :: 0 <= i < |after.audits| && after.audits[i].entry == Some(k) ==>
                  var a := after.audits[i];
                  && k < |after.entries| && after.entries[k].ByOwner? && a.head == after.entries[k].merge.sha
                  && a.ev == Some(after.entries[k].merge.ev) && !a.bypass
                  && ContextsGreen(a.ev.value, ProtectedContexts(rules.policy)))
  {
    hide Next, HasAudit, Completes, ContextsGreen, ProtectedContexts;
    InitialOwners(start);
    EveryRunKeepsOwners(rules, start, before);
    RunConcat(rules, start, before, rest);
    OwedAuditComes(rules, RunOf(rules, start, before), id, rest);
    EveryRunKeepsOwners(rules, start, before + rest);
    var after := RunOf(rules, start, before + rest);
    var k := RunOf(rules, start, before).calls[id].entry;
    forall i | 0 <= i < |after.audits| && after.audits[i].entry == Some(k)
      ensures && k < |after.entries| && after.entries[k].ByOwner? && after.audits[i].head == after.entries[k].merge.sha
              && after.audits[i].ev == Some(after.entries[k].merge.ev) && !after.audits[i].bypass
              && ContextsGreen(after.entries[k].merge.ev, ProtectedContexts(rules.policy))
    {
      assert IsOwners(after, k);
      MergeSafety.OwnerMergesAreSafe(rules, start, before + rest, after.entries[k].merge);
    }
  }

  lemma InitialOwners(start: World)
    requires Initial(start)
    ensures OwnersOk(start)
  {
  }

  // --- a merge without its audit -------------------------------------------------------------------

  /** A rollup is validated and reviewed, the owner merges it, and the process that does so dies after recording. */
  function Unaudited(ev: CiEvidence, mergeSha: Sha): seq<Action> {
    ToReady(ev) + ToDecision(ev) + ToMerge(true, true, mergeSha) + [ByCall(0, CallRecord)] + [ByEnv(RemoteCrash)]
  }

  lemma RecordAndDie(rules: Rules, w: World)
    requires w.row.state == READY_FOR_OWNER && 0 in w.calls && w.calls[0].MergedOnGitHub?
    ensures var after := Next(rules, Next(rules, w, ByCall(0, CallRecord)), ByEnv(RemoteCrash));
            after.row.state == MERGED && after.entries == w.entries + [ByOwner(w.calls[0].merge)]
                && after.audits == w.audits && after.calls == map[]
  {
    hide NextTick, NextOrder, NextBranches, NextWorker, NextReviewer;
  }

  /** The proviso is needed: for any rollup whose gates are green, from its first tracking, this run merges it into
      MERGED, and no continuation ever audits that merge. */
  lemma AnUnauditedMerge(rules: Rules, start: World, ev: CiEvidence, mergeSha: Sha, rest: seq<Action>)
    requires Initial(start) && GreenRollup(rules, start, ev) && Counted(rules, start, true, true) == Some(0)
    ensures var w := RunOf(rules, start, Unaudited(ev, mergeSha));
            && w.row.state == MERGED && |w.entries| == 1 && w.entries[0].ByOwner? && w.audits == []
            && !HasAudit(RunOf(rules, w, rest).audits, 0)
  {
    hide Next, GreenRollup, HasAudit, Counted, ToReady, ToDecision, ToMerge;
    ReadyRuns(rules, start, ev);
    var a, b, c := ToReady(ev), ToDecision(ev), ToMerge(true, true, mergeSha);
    var w1 := RunOf(rules, start, a);
    DecisionRuns(rules, w1, ev);
    RunConcat(rules, start, a, b);
    var w2 := RunOf(rules, w1, b);
    SameCount(rules, start, w2, true, true);
    MergingRuns(rules, w2, w1.row, ev, true, true, mergeSha);
    RunConcat(rules, start, a + b, c);
    RunSnoc(rules, start, a + b + c, ByCall(0, CallRecord));
    RunSnoc(rules, start, a + b + c + [ByCall(0, CallRecord)], ByEnv(RemoteCrash));
    RecordAndDie(rules, RunOf(rules, w2, c));
    var w := RunOf(rules, start, Unaudited(ev, mergeSha));
    NoAudits(0);
    OrphansStay(rules, w, 0, rest);
  }

  lemma NoAudits(k: nat)
    ensures !HasAudit([], k)
  {
  }
}
