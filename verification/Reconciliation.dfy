/** Restart reconciliation: one pass over the tracked Issues, then stale-lock recovery. */
module Reconciliation {
  import opened Prelude
  import opened Lifecycle
  import opened StateStore
  import opened Locks

  datatype PrView = PrView(merged: bool, closed: bool, mergeSha: Option<Sha>, contextsGreen: bool)

  /** What one pass observes outside the store. A pull request or Issue that cannot be read is absent. */
  datatype Probe = Probe(
    now: real, workers: set<int>, reviewers: set<int>, alivePids: set<int>, prs: map<int, PrView>,
    closedOnGitHub: map<int, bool>, rootsClosed: set<int>, dryRun: bool,
    staleAfter: real, lockTtl: real, maxRepairs: nat)

  predicate AttemptsRemaining(row: IssueRow, maxRepairs: nat) {
    (if row.attempt > 0 then row.attempt - 1 else 0) < maxRepairs
  }

  predicate PidAlive(row: IssueRow, p: Probe) {
    row.pid.Some? && row.pid.value != 0 && row.pid.value in p.alivePids
  }

  predicate HeartbeatFresh(row: IssueRow, p: Probe) {
    p.now - OrElse(row.heartbeatAt, OrElse(row.startedAt, 0.0)) <= p.staleAfter
  }

  const PR_STATES: set<State> := {PR_OPEN, CI, REVIEW, READY_FOR_OWNER}

  function Move(db: Db, id: int, to: State, fields: seq<Field>, p: Probe): (Db, TxResult) {
    TransitionDb(db, id, to, None, fields, p.now)
  }

  /** The audit trail of a merge found outside the workflow. */
  function Audit(db: Db, pr: PrView): Db {
    db.(events := db.events + [Noted("merge_gate_audit")]
      + if pr.contextsGreen then [] else [Noted("admin_bypass_detected")])
  }

  function LostWorker(db: Db, id: int, p: Probe): (Db, TxResult)
    requires id in db.issues
  {
    var row := db.issues[id];
    var cleared := ReleaseDb(UpdateDb(db, id, [Pid(None), Assigned(None)], p.now), id);
    Move(cleared, id, if AttemptsRemaining(row, p.maxRepairs) then QUEUED else BLOCKED, [], p)
  }

  /** The GitHub part of the step: a pull request or Issue that ended outside the workflow. */
  function Outside(db: Db, id: int, p: Probe): (Db, TxResult)
    requires id in db.issues
  {
    var row := db.issues[id];
    var pr := if row.state in PR_STATES && row.pr.Some? && row.pr.value != 0 && row.pr.value in p.prs
      then Some(p.prs[row.pr.value]) else None;
    if pr.Some? && pr.value.merged then
      if row.state == READY_FOR_OWNER then Move(Audit(db, pr.value), id, MERGED, [Validated(pr.value.mergeSha)], p)
      else Move(Audit(db, pr.value), id, BLOCKED, [], p)
    else if pr.Some? && pr.value.closed then Move(ReleaseDb(db, id), id, BLOCKED, [], p)
    else if p.dryRun || id !in p.closedOnGitHub || !p.closedOnGitHub[id] || row.state in {MERGED, DONE} then (db, Done)
    else if row.state == BLOCKED then
      if row.kind == Root && id in p.rootsClosed then Move(db, id, DONE, [], p) else (db, Done)
    else Move(ReleaseDb(db, id), id, BLOCKED, [], p)
  }

  /** One Issue's reconciliation. The result is `Done` unless a transition was refused. */
  function ReconcileOne(db: Db, id: int, p: Probe): (Db, TxResult)
    requires id in db.issues
  {
    var row := db.issues[id];
    if row.state == WORKING && id !in p.workers then
      if !PidAlive(row, p) || !HeartbeatFresh(row, p) then LostWorker(db, id, p) else (db, Done)
    else if row.state == CLAIMED && id !in p.workers then Move(ReleaseDb(db, id), id, QUEUED, [], p)
    else if row.state == REVIEW && row.agent.Some? && id !in p.reviewers then
      Outside(UpdateDb(db, id, [Assigned(None), Pid(None)], p.now), id, p)
    else Outside(db, id, p)
  }

  /** The pass over the listed Issues, and whether every attempted transition was legal. */
  function Pass(db: Db, ids: seq<int>, p: Probe): (r: (Db, bool))
    requires forall id :: id in ids ==> id in db.issues
    ensures r.0.issues.Keys == db.issues.Keys
  {
    if ids == [] then (db, true)
    else
      var (before, ok) := Pass(db, DropLast(ids), p);
      OneSettles(before, Last(ids), p);
      var (after, res) := ReconcileOne(before, Last(ids), p);
      (after, ok && res == Done)
  }

  function ReconcileDb(db: Db, ids: seq<int>, lockListing: seq<LockKey>, p: Probe): Db
    requires forall id :: id in ids ==> id in db.issues
  {
    Recovered(Pass(db, ids, p).0, lockListing, p.now, p.lockTtl)
  }

  /** `ids` is the store's listing of the Issues that are not DONE, `lockListing` its listing of the lock table. */
  method Reconcile(store: Store, ids: seq<int>, lockListing: seq<LockKey>, p: Probe)
    requires forall id :: id in ids ==> id in store.issues
    modifies store
    ensures store.Contents() == ReconcileDb(old(store.Contents()), ids, lockListing, p)
  {
    for i := 0 to |ids|
      invariant store.Contents() == Pass(old(store.Contents()), ids[..i], p).0
    {
      assert DropLast(ids[..i + 1]) == ids[..i];
      OneSettles(store.Contents(), ids[i], p);
      ReconcileIssue(store, ids[i], p);
    }
    assert ids[..|ids|] == ids;
    RecoverStale(store, lockListing, p.now, p.lockTtl);
  }

  method ReconcileIssue(store: Store, id: int, p: Probe)
    requires id in store.issues
    modifies store
    ensures store.Contents() == ReconcileOne(old(store.Contents()), id, p).0
  {
    var row := store.issues[id];
    if row.state == WORKING && id !in p.workers {
      if !PidAlive(row, p) || !HeartbeatFresh(row, p) {
        store.Update(id, [Pid(None), Assigned(None)], p.now);
        var _ := store.ReleaseLocks(id);
        var next := if AttemptsRemaining(row, p.maxRepairs) then QUEUED else BLOCKED;
        var _ := store.Transition(id, next, None, [], p.now);
      }
      return;
    }
    if row.state == CLAIMED && id !in p.workers {
      var _ := store.ReleaseLocks(id);
      var _ := store.Transition(id, QUEUED, None, [], p.now);
      return;
    }
    if row.state == REVIEW && row.agent.Some? && id !in p.reviewers {
      store.Update(id, [Assigned(None), Pid(None)], p.now);
    }
    ReconcileOutside(store, id, p);
  }

  method ReconcileOutside(store: Store, id: int, p: Probe)
    requires id in store.issues
    modifies store
    ensures store.Contents() == Outside(old(store.Contents()), id, p).0
  {
    var row := store.issues[id];
    if row.state in PR_STATES && row.pr.Some? && row.pr.value != 0 && row.pr.value in p.prs {
      var pr := p.prs[row.pr.value];
      if pr.merged {
        store.RecordEvent("merge_gate_audit");
        if !pr.contextsGreen { store.RecordEvent("admin_bypass_detected"); }
        assert store.Contents() == Audit(old(store.Contents()), pr);
        if row.state == READY_FOR_OWNER {
          var _ := store.Transition(id, MERGED, None, [Validated(pr.mergeSha)], p.now);
        } else {
          var _ := store.Transition(id, BLOCKED, None, [], p.now);
        }
        return;
      }
      if pr.closed {
        var _ := store.ReleaseLocks(id);
        var _ := store.Transition(id, BLOCKED, None, [], p.now);
        return;
      }
    }
    if !p.dryRun && id in p.closedOnGitHub && p.closedOnGitHub[id] && row.state !in {MERGED, DONE} {
      if row.state == BLOCKED {
        if row.kind == Root && id in p.rootsClosed { var _ := store.Transition(id, DONE, None, [], p.now); }
        return;
      }
      var _ := store.ReleaseLocks(id);
      var _ := store.Transition(id, BLOCKED, None, [], p.now);
    }
  }

  // --- what one pass guarantees ------------------------------------------------------------------

  /** The row a step leaves behind, as far as recovery promises anything about it. */
  ghost predicate Settled(row: IssueRow, id: int, p: Probe) {
    && (row.state == CLAIMED ==> id in p.workers)
    && (row.state == WORKING ==> id in p.workers || (PidAlive(row, p) && HeartbeatFresh(row, p)))
    && (row.state == REVIEW ==> row.agent.None? || id in p.reviewers)
  }

  /** What a step may do: one Issue's row, no attempt spent, no lock taken. */
  ghost predicate StepKeeps(db: Db, id: int, after: Db) {
    && id in db.issues && after.issues.Keys == db.issues.Keys
    && after.issues[id].attempt == db.issues[id].attempt
    && (forall other :: other in db.issues && other != id ==> after.issues[other] == db.issues[other])
    && (forall k :: k in after.locks ==> k in db.locks)
    && (forall k :: k in db.locks && k.1 != id ==> k in after.locks)
  }

  lemma MoveKeeps(db: Db, id: int, to: State, sha: Option<Option<Sha>>, p: Probe)
    requires id in db.issues && Allowed(db.issues[id].state, to)
    ensures var (after, res) := Move(db, id, to, if sha.Some? then [Validated(sha.value)] else [], p);
            && res == Done && StepKeeps(db, id, after) && after.issues[id].state == to
            && after.issues[id].pid == db.issues[id].pid && after.issues[id].agent == db.issues[id].agent
  {
    var base := db.issues[id].(state := to, updatedAt := p.now);
    if sha.Some? {
      assert DropLast([Validated(sha.value)]) == [];
      assert SetFields(base, [Validated(sha.value)]) == SetField(SetFields(base, []), Validated(sha.value));
    }
  }

  lemma ClearKeeps(db: Db, id: int, fields: seq<Field>, p: Probe)
    requires id in db.issues && (fields == [Pid(None), Assigned(None)] || fields == [Assigned(None), Pid(None)])
    ensures UpdateDb(db, id, fields, p.now).issues[id] == db.issues[id].(pid := None, agent := None, updatedAt := p.now)
    ensures StepKeeps(db, id, UpdateDb(db, id, fields, p.now))
  {
    var base := db.issues[id].(updatedAt := p.now);
    assert DropLast(fields) == [fields[0]] && DropLast([fields[0]]) == [];
    assert SetFields(base, [fields[0]]) == SetField(SetFields(base, []), fields[0]);
  }

  lemma FoundMergeSettles(db: Db, id: int, pr: PrView, p: Probe)
    requires id in db.issues && db.issues[id].state in PR_STATES
    ensures var (after, res) := if db.issues[id].state == READY_FOR_OWNER
      then Move(Audit(db, pr), id, MERGED, [Validated(pr.mergeSha)], p)
                                else Move(Audit(db, pr), id, BLOCKED, [], p);
            res == Done && StepKeeps(db, id, after) && Settled(after.issues[id], id, p)
  {
    hide Move, PidAlive, HeartbeatFresh;
    if db.issues[id].state == READY_FOR_OWNER {
      MoveKeeps(Audit(db, pr), id, MERGED, Some(pr.mergeSha), p);
    } else {
      MoveKeeps(Audit(db, pr), id, BLOCKED, None, p);
    }
  }

  lemma OutsideSettles(db: Db, id: int, p: Probe)
    requires id in db.issues && Settled(db.issues[id], id, p)
    ensures var (after, res) := Outside(db, id, p);
            res == Done && StepKeeps(db, id, after) && Settled(after.issues[id], id, p)
  {
    hide Move, PidAlive, HeartbeatFresh, Audit;
    var row := db.issues[id];
    if row.state in PR_STATES && row.pr.Some? && row.pr.value != 0 && row.pr.value in p.prs
        && p.prs[row.pr.value].merged {
      FoundMergeSettles(db, id, p.prs[row.pr.value], p);
    } else if row.state == BLOCKED {
      MoveKeeps(db, id, DONE, None, p);
    } else if row.state != DONE {
      MoveKeeps(ReleaseDb(db, id), id, BLOCKED, None, p);
    }
  }

  /** A step on one Issue attempts only legal transitions, leaves the Issue settled, spends none of its attempts,
      touches no other Issue and takes no lock. */
  lemma OneSettles(db: Db, id: int, p: Probe)
    requires id in db.issues
    ensures var (after, res) := ReconcileOne(db, id, p);
            res == Done && StepKeeps(db, id, after) && Settled(after.issues[id], id, p)
  {
    var row := db.issues[id];
    if row.state == WORKING && id !in p.workers {
      var cleared := UpdateDb(db, id, [Pid(None), Assigned(None)], p.now);
      ClearKeeps(db, id, [Pid(None), Assigned(None)], p);
      MoveKeeps(ReleaseDb(cleared, id), id, if AttemptsRemaining(row, p.maxRepairs) then QUEUED else BLOCKED, None, p);
    } else if row.state == CLAIMED && id !in p.workers {
      MoveKeeps(ReleaseDb(db, id), id, QUEUED, None, p);
    } else if row.state == REVIEW && row.agent.Some? && id !in p.reviewers {
      ClearKeeps(db, id, [Assigned(None), Pid(None)], p);
      OutsideSettles(UpdateDb(db, id, [Assigned(None), Pid(None)], p.now), id, p);
    } else {
      OutsideSettles(db, id, p);
    }
  }

  lemma {:induction false} PassSettles(db: Db, ids: seq<int>, p: Probe)
    requires forall id :: id in ids ==> id in db.issues
    ensures var (after, ok) := Pass(db, ids, p);
            && ok && (forall id :: id in ids ==> Settled(after.issues[id], id, p))
            && (forall id :: id in db.issues ==> after.issues[id].attempt == db.issues[id].attempt)
            && (forall id :: id in db.issues && id !in ids ==> after.issues[id] == db.issues[id])
            && (forall k :: k in after.locks ==> k in db.locks)
  {
    hide ReconcileOne, Settled;
    if ids != [] {
      PassSettles(db, DropLast(ids), p);
      assert ids == DropLast(ids) + [Last(ids)];
      OneSettles(Pass(db, DropLast(ids), p).0, Last(ids), p);
    }
  }

  /** Crash recovery. Whatever a crash left in the store, one reconciliation attempts only legal transitions and
      ends with no CLAIMED Issue lacking its worker, no WORKING Issue without a worker unless its process lives and
      its heartbeat is fresh, no reviewer slot held by nobody, every lock owned by a tracked Issue in a
      resource-holding state, and every attempt count as it was. */
  lemma ReconcileRecovers(db: Db, ids: seq<int>, lockListing: seq<LockKey>, p: Probe)
    requires forall id :: id in ids <==> id in db.issues && db.issues[id].state != DONE
    requires forall k :: k in db.locks ==> k in lockListing
    ensures Pass(db, ids, p).1
    ensures var after := ReconcileDb(db, ids, lockListing, p);
            && after.issues.Keys == db.issues.Keys
            && (forall id :: id in after.issues ==>
                  Settled(after.issues[id], id, p) && after.issues[id].attempt == db.issues[id].attempt)
            && (forall k :: k in after.locks ==> k.1 in after.issues && after.issues[k.1].state in RESOURCE_HOLDING)
            && (forall k :: k in after.locks ==> k in db.locks)
  {
    PassSettles(db, ids, p);
    RecoveryKeeps(Pass(db, ids, p).0, lockListing, p.now, p.lockTtl);
  }

  /** A WORKING Issue with its worker thread (and its Issue not closed on GitHub), or else with a live process and a
      fresh heartbeat. */
  predicate VisiblyAlive(db: Db, p: Probe, id: int) {
    && id in db.issues && db.issues[id].state == WORKING
    && (if id in p.workers then p.dryRun || id !in p.closedOnGitHub || !p.closedOnGitHub[id]
        else PidAlive(db.issues[id], p) && HeartbeatFresh(db.issues[id], p))
  }

  lemma {:induction false} PassLeavesLiveWork(db: Db, ids: seq<int>, p: Probe, id: int)
    requires (forall i :: i in ids ==> i in db.issues) && VisiblyAlive(db, p, id)
    ensures Pass(db, ids, p).0.issues[id] == db.issues[id]
    ensures forall k :: k in db.locks && k.1 == id ==> k in Pass(db, ids, p).0.locks
  {
    hide Move, LostWorker, ReleaseDb, UpdateDb, Audit, Settled, PidAlive, HeartbeatFresh;
    if ids != [] {
      PassLeavesLiveWork(db, DropLast(ids), p, id);
      var before, last := Pass(db, DropLast(ids), p).0, Last(ids);
      OneSettles(before, last, p);
    }
  }

  /** Work that is visibly alive keeps its row over the whole reconciliation. Its locks outlive the pass, and the
      recovery that follows takes them exactly when the last sign of life is older than the time locks live: a worker
      thread alone does not protect them. */
  lemma LiveWorkIsLeftAlone(db: Db, ids: seq<int>, lockListing: seq<LockKey>, p: Probe, id: int)
    requires (forall i :: i in ids ==> i in db.issues) && VisiblyAlive(db, p, id)
    requires forall k :: k in Pass(db, ids, p).0.locks ==> k in lockListing
    ensures var after := ReconcileDb(db, ids, lockListing, p);
            && id in after.issues && after.issues[id] == db.issues[id]
            && forall k :: k in db.locks && k.1 == id ==>
                  (k in after.locks <==> p.now - LastSignOfLife(db.issues[id], p.now) <= p.lockTtl)
  {
    hide Pass, VisiblyAlive, LastSignOfLife;
    PassLeavesLiveWork(db, ids, p, id);
    RecoveryKeeps(Pass(db, ids, p).0, lockListing, p.now, p.lockTtl);
    assert id in db.issues && db.issues[id].state == WORKING by { AliveWorks(db, p, id); }
  }

  lemma AliveWorks(db: Db, p: Probe, id: int)
    requires VisiblyAlive(db, p, id)
    ensures id in db.issues && db.issues[id].state == WORKING
  {
  }

  lemma OneReplays(db: Db, id: int, p: Probe)
    requires id in db.issues && Replay(db.events) == Some(ViewOf(db))
    ensures var after := ReconcileOne(db, id, p).0; Replay(after.events) == Some(ViewOf(after))
  {
    hide Replay, TransitionDb, ReleaseDb, Outside;
    var row := db.issues[id];
    var fields := if row.state == WORKING then [Pid(None), Assigned(None)] else [Assigned(None), Pid(None)];
    var cleared := UpdateDb(db, id, fields, p.now);
    assert ViewOf(cleared) == ViewOf(db);
    if row.state == WORKING && id !in p.workers {
      ReleaseReplays(cleared, id);
      var next := if AttemptsRemaining(row, p.maxRepairs) then QUEUED else BLOCKED;
      TransitionReplays(ReleaseDb(cleared, id), id, next, None, [], p.now);
    } else if row.state == CLAIMED && id !in p.workers {
      ReleaseReplays(db, id);
      TransitionReplays(ReleaseDb(db, id), id, QUEUED, None, [], p.now);
    } else if row.state == REVIEW && row.agent.Some? && id !in p.reviewers {
      OutsideReplays(cleared, id, p);
    } else {
      OutsideReplays(db, id, p);
    }
  }

  lemma AuditReplays(db: Db, pr: PrView)
    requires Replay(db.events) == Some(ViewOf(db))
    ensures Replay(Audit(db, pr).events) == Some(ViewOf(Audit(db, pr)))
  {
    assert ViewOf(Audit(db, pr)) == ViewOf(db);
    ReplaySnoc(db.events, Noted("merge_gate_audit"));
    var once := db.events + [Noted("merge_gate_audit")];
    ReplaySnoc(once, Noted("admin_bypass_detected"));
    assert Audit(db, pr).events == if pr.contextsGreen then once else once + [Noted("admin_bypass_detected")];
  }

  lemma OutsideReplays(db: Db, id: int, p: Probe)
    requires id in db.issues && Replay(db.events) == Some(ViewOf(db))
    ensures var after := Outside(db, id, p).0; Replay(after.events) == Some(ViewOf(after))
  {
    hide Replay, ViewOf, TransitionDb, ReleaseDb, Audit;
    var row := db.issues[id];
    if row.state in PR_STATES && row.pr.Some? && row.pr.value != 0 && row.pr.value in p.prs
        && p.prs[row.pr.value].merged {
      var pr := p.prs[row.pr.value];
      AuditReplays(db, pr);
      if row.state == READY_FOR_OWNER {
        TransitionReplays(Audit(db, pr), id, MERGED, None, [Validated(pr.mergeSha)], p.now);
      } else {
        TransitionReplays(Audit(db, pr), id, BLOCKED, None, [], p.now);
      }
    } else if row.state == BLOCKED {
      TransitionReplays(db, id, DONE, None, [], p.now);
    } else {
      ReleaseReplays(db, id);
      TransitionReplays(ReleaseDb(db, id), id, BLOCKED, None, [], p.now);
    }
  }

  /** Reconciliation is itself event-sourced: after it, the log still rebuilds the store. */
  lemma {:induction false} PassReplays(db: Db, ids: seq<int>, p: Probe)
    requires (forall id :: id in ids ==> id in db.issues) && Replay(db.events) == Some(ViewOf(db))
    ensures var after := Pass(db, ids, p).0; Replay(after.events) == Some(ViewOf(after))
  {
    hide Replay, ViewOf, ReconcileOne;
    if ids != [] {
      PassReplays(db, DropLast(ids), p);
      OneReplays(Pass(db, DropLast(ids), p).0, Last(ids), p);
    }
  }
}
