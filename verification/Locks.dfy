/** Domain locks: which locks a contract needs, the planner's non-mutating check, and stale recovery. */
module Locks {
  import opened Prelude
  import opened Lifecycle
  import opened StateStore

  /** The part of an Issue contract that admission looks at. */
  datatype WorkContract = WorkContract(dependencies: seq<int>, domains: seq<string>, locks: seq<LockReq>,
      resourceClass: string)

  datatype LockConfig = LockConfig(implied: map<string, seq<string>>, concurrent: set<string>, staleAfter: real)

  /** A lock the scheduler is about to grant: visible to later checks, not yet in the store. */
  datatype HeldRow = HeldRow(name: string, mode: Mode, id: int)

  // --- which locks a contract needs --------------------------------------------------------------

  function AddNames(acc: seq<LockReq>, names: seq<string>): seq<LockReq> {
    if names == [] then acc
    else
      var r := AddNames(acc, DropLast(names));
      if exists l :: l in r && l.name == Last(names) then r else r + [LockReq(Last(names), Exclusive)]
  }

  function ImpliedFor(domain: string, config: LockConfig): seq<string> {
    if domain in config.implied then config.implied[domain] else []
  }

  function ImpliedLocks(domains: seq<string>, config: LockConfig): seq<LockReq> {
    if domains == [] then [] else AddNames(ImpliedLocks(DropLast(domains), config), ImpliedFor(Last(domains), config))
  }

  function Soften(reqs: seq<LockReq>, concurrent: set<string>): (r: seq<LockReq>)
    ensures |r| == |reqs|
  {
    seq(|reqs|, i requires 0 <= i < |reqs| =>
      if reqs[i].name in concurrent then LockReq(reqs[i].name, Shared) else reqs[i])
  }

  function EffectiveLocks(c: WorkContract, config: LockConfig): seq<LockReq> {
    Soften(if c.locks != [] then c.locks else ImpliedLocks(c.domains, config), config.concurrent)
  }

  method ComputeEffectiveLocks(c: WorkContract, config: LockConfig) returns (reqs: seq<LockReq>)
    ensures reqs == EffectiveLocks(c, config)
  {
    var requested := c.locks;
    if requested == [] {
      for i := 0 to |c.domains|
        invariant requested == ImpliedLocks(c.domains[..i], config)
      {
        var names := ImpliedFor(c.domains[i], config);
        ghost var before := requested;
        for j := 0 to |names|
          invariant requested == AddNames(before, names[..j])
        {
          assert DropLast(names[..j + 1]) == names[..j];
          if !exists l :: l in requested && l.name == names[j] {
            requested := requested + [LockReq(names[j], Exclusive)];
          }
        }
        assert names[..|names|] == names;
        assert DropLast(c.domains[..i + 1]) == c.domains[..i];
      }
      assert c.domains[..|c.domains|] == c.domains;
    }
    reqs := Soften(requested, config.concurrent);
  }

  lemma {:induction false} AddNamesCovers(acc: seq<LockReq>, names: seq<string>)
    requires forall i, j :: 0 <= i < j < |acc| ==> acc[i].name != acc[j].name
    ensures var r := AddNames(acc, names);
            && (forall i, j :: 0 <= i < j < |r| ==> r[i].name != r[j].name)
            && acc <= r
            && (forall n :: n in names ==> exists l :: l in r && l.name == n)
            && (forall l :: l in r ==> l in acc || (l.mode == Exclusive && l.name in names))
  {
    if names != [] {
      AddNamesCovers(acc, DropLast(names));
      var before, r := AddNames(acc, DropLast(names)), AddNames(acc, names);
      assert names == DropLast(names) + [Last(names)];
      assert before <= r;
      assert exists l :: l in r && l.name == Last(names) by {
        if r != before { assert r[|r| - 1].name == Last(names); }
      }
      forall n | n in names ensures exists l :: l in r && l.name == n {
        if n in DropLast(names) {
          var l :| l in before && l.name == n;
          assert l in r;
        }
      }
    }
  }

  /** Every lock a listed domain implies is in the result exactly once. */
  lemma {:induction false} ImpliedCovers(domains: seq<string>, config: LockConfig)
    ensures var r := ImpliedLocks(domains, config);
            && (forall i, j :: 0 <= i < j < |r| ==> r[i].name != r[j].name)
            && (forall l :: l in r ==>
                  l.mode == Exclusive && exists d :: d in domains && l.name in ImpliedFor(d, config))
            && (forall d, n :: d in domains && n in ImpliedFor(d, config) ==> exists l :: l in r && l.name == n)
  {
    if domains != [] {
      ImpliedCovers(DropLast(domains), config);
      var before := ImpliedLocks(DropLast(domains), config);
      AddNamesCovers(before, ImpliedFor(Last(domains), config));
      assert domains == DropLast(domains) + [Last(domains)];
      forall d, n | d in domains && n in ImpliedFor(d, config)
        ensures exists l :: l in ImpliedLocks(domains, config) && l.name == n
      {
        if d in DropLast(domains) {
          var l :| l in before && l.name == n;
          assert l in ImpliedLocks(domains, config);
        }
      }
    }
  }

  /** A lock the configuration serves concurrently is never requested exclusively; every other lock keeps the
      mode it was declared with, and an explicit declaration beats the domains. */
  lemma EffectiveLocksRespectConfig(c: WorkContract, config: LockConfig)
    ensures var r := EffectiveLocks(c, config);
            && (forall l :: l in r && l.name in config.concurrent ==> l.mode == Shared)
            && (c.locks != [] ==> |r| == |c.locks|)
            && (c.locks != [] ==> forall i :: 0 <= i < |r| ==>
                  r[i].name == c.locks[i].name && (r[i].name !in config.concurrent ==> r[i] == c.locks[i]))
            && (c.locks == [] ==> forall d, n :: d in c.domains && n in ImpliedFor(d, config) ==>
                  LockReq(n, if n in config.concurrent then Shared else Exclusive) in r)
  {
    var r := EffectiveLocks(c, config);
    if c.locks == [] {
      ImpliedCovers(c.domains, config);
      var implied := ImpliedLocks(c.domains, config);
      forall d, n | d in c.domains && n in ImpliedFor(d, config)
        ensures LockReq(n, if n in config.concurrent then Shared else Exclusive) in r
      {
        var l :| l in implied && l.name == n;
        var i :| 0 <= i < |implied| && implied[i] == l;
        assert r[i] in r;
      }
    }
  }

  // --- the planner's check -----------------------------------------------------------------------

  predicate GrantClashes(h: HeldRow, r: LockReq, id: int) {
    h.name == r.name && h.id != id && (r.mode == Exclusive || h.mode == Exclusive)
  }

  predicate LocksFree(locks: LockTable, granted: seq<HeldRow>, reqs: seq<LockReq>, id: int) {
    && (forall k, r :: k in locks && r in reqs ==> !Clashes(k, locks[k], r, id))
    && (forall h, r :: h in granted && r in reqs ==> !GrantClashes(h, r, id))
  }

  lemma LocksFreeSnoc(locks: LockTable, granted: seq<HeldRow>, reqs: seq<LockReq>, r: LockReq, id: int)
    ensures LocksFree(locks, granted, reqs + [r], id) <==>
            LocksFree(locks, granted, reqs, id) && LockConflicts(locks, r, id) == {}
                && (forall h :: h in granted ==> !GrantClashes(h, r, id))
  {
    assert forall q :: q in reqs + [r] <==> q in reqs || q == r;
    if LockConflicts(locks, r, id) == {} {
      forall k | k in locks ensures !Clashes(k, locks[k], r, id) {
        assert k !in LockConflicts(locks, r, id);
      }
    } else {
      var k :| k in LockConflicts(locks, r, id);
      assert r in reqs + [r];
    }
    if LocksFree(locks, granted, reqs + [r], id) {
      assert r in reqs + [r];
    }
  }

  /** Non-mutating: the store's rows and the simulated grants are both looked at, nothing is written. */
  method Check(store: Store, id: int, reqs: seq<LockReq>, granted: seq<HeldRow>) returns (ok: bool)
    ensures ok <==> LocksFree(store.locks, granted, reqs, id)
  {
    ok := true;
    for i := 0 to |reqs|
      invariant ok <==> LocksFree(store.locks, granted, reqs[..i], id)
    {
      assert reqs[..i + 1] == reqs[..i] + [reqs[i]];
      LocksFreeSnoc(store.locks, granted, reqs[..i], reqs[i], id);
      ghost var before := ok;
      var here := LockConflicts(store.locks, reqs[i], id) == {};
      ok := ok && here;
      for j := 0 to |granted|
        invariant ok <==> before && here && forall h :: h in granted[..j] ==> !GrantClashes(h, reqs[i], id)
      {
        assert granted[..j + 1] == granted[..j] + [granted[j]];
        if GrantClashes(granted[j], reqs[i], id) { ok := false; }
      }
      assert granted[..|granted|] == granted;
    }
    assert reqs[..|reqs|] == reqs;
  }

  // --- stale recovery ----------------------------------------------------------------------------

  /** Python's `or` over optional timestamps: absent and 0.0 both fall through. */
  function OrElse(o: Option<real>, fallback: real): real {
    if o.Some? && o.value != 0.0 then o.value else fallback
  }

  function LastSignOfLife(row: IssueRow, now: real): real {
    OrElse(row.heartbeatAt, OrElse(row.startedAt, OrElse(Some(row.updatedAt), now)))
  }

  predicate Stale(db: Db, id: int, now: real, ttl: real) {
    if id !in db.issues || db.issues[id].state !in RESOURCE_HOLDING then true
    else if db.issues[id].state in AGENT_ACTIVE then now - LastSignOfLife(db.issues[id], now) > ttl
    else
      && db.issues[id].heartbeatAt.None?
      && exists k :: k in db.locks && k.1 == id && now - db.locks[k].acquiredAt > ttl * 4.0
  }

  function Kept(db: Db, now: real, ttl: real): LockTable {
    map k | k in db.locks && !Stale(db, k.1, now, ttl) :: db.locks[k]
  }

  function Recovered(db: Db, listed: seq<LockKey>, now: real, ttl: real): Db {
    if listed == [] then db
    else
      var before := Recovered(db, DropLast(listed), now, ttl);
      if Stale(before, Last(listed).1, now, ttl) then ReleaseDb(before, Last(listed).1) else before
  }

  /** `listed` is the listing of the lock table that the recovery walks. */
  method RecoverStale(store: Store, listed: seq<LockKey>, now: real, ttl: real)
    modifies store
    ensures store.Contents() == Recovered(old(store.Contents()), listed, now, ttl)
  {
    for i := 0 to |listed|
      invariant store.Contents() == Recovered(old(store.Contents()), listed[..i], now, ttl)
    {
      assert DropLast(listed[..i + 1]) == listed[..i];
      if Stale(store.Contents(), listed[i].1, now, ttl) {
        var _ := store.ReleaseLocks(listed[i].1);
      }
    }
    assert listed[..|listed|] == listed;
  }

  ghost predicate Swept(db: Db, listed: seq<LockKey>, id: int, now: real, ttl: real) {
    Stale(db, id, now, ttl) && exists l :: l in listed && l.1 == id
  }

  lemma {:induction false} RecoveredSoFar(db: Db, listed: seq<LockKey>, now: real, ttl: real)
    ensures var r := Recovered(db, listed, now, ttl);
            && r.issues == db.issues && db.events <= r.events
            && (forall k :: k in r.locks <==> k in db.locks && !Swept(db, listed, k.1, now, ttl))
            && (forall k :: k in r.locks ==> r.locks[k] == db.locks[k])
  {
    if listed != [] {
      RecoveredSoFar(db, DropLast(listed), now, ttl);
      var before, r, id := Recovered(db, DropLast(listed), now, ttl), Recovered(db, listed, now, ttl), Last(listed).1;
      assert listed == DropLast(listed) + [Last(listed)] && Last(listed) in listed;
      assert Swept(db, listed, id, now, ttl) <==> Stale(db, id, now, ttl);
      if Swept(db, DropLast(listed), id, now, ttl) {
        assert HeldBy(before.locks, id) == {};
      } else {
        assert Stale(before, id, now, ttl) == Stale(db, id, now, ttl);
        assert Stale(db, id, now, ttl) ==>
            forall k :: k in r.locks <==> k in before.locks && k !in HeldBy(before.locks, id);
      }
      assert forall k: LockKey :: k.1 != id ==>
          Swept(db, listed, k.1, now, ttl) == Swept(db, DropLast(listed), k.1, now, ttl);
    }
  }

  lemma {:induction false} RecoveryReplays(db: Db, listed: seq<LockKey>, now: real, ttl: real)
    requires Replay(db.events) == Some(ViewOf(db))
    ensures var r := Recovered(db, listed, now, ttl); Replay(r.events) == Some(ViewOf(r))
  {
    if listed != [] {
      RecoveryReplays(db, DropLast(listed), now, ttl);
      ReleaseReplays(Recovered(db, DropLast(listed), now, ttl), Last(listed).1);
    }
  }

  /** Walking the whole listing keeps exactly the locks that are not stale. */
  lemma RecoveryKeeps(db: Db, listed: seq<LockKey>, now: real, ttl: real)
    requires forall k :: k in db.locks ==> k in listed
    ensures Recovered(db, listed, now, ttl).locks == Kept(db, now, ttl)
    ensures Recovered(db, listed, now, ttl).issues == db.issues
  {
    RecoveredSoFar(db, listed, now, ttl);
  }

  /** Recovery frees no Issue whose agent may still be running and gave a sign of life within the TTL, and it
      leaves no lock behind whose owner is untracked or not in a resource-holding state. */
  lemma RecoveryFreesOnlyTheDead(db: Db, now: real, ttl: real)
    ensures forall k :: k in Kept(db, now, ttl) ==> k.1 in db.issues && db.issues[k.1].state in RESOURCE_HOLDING
    ensures forall k | k in db.locks && k.1 in db.issues && db.issues[k.1].state in AGENT_ACTIVE ::
              now - LastSignOfLife(db.issues[k.1], now) <= ttl ==> k in Kept(db, now, ttl)
    ensures LockSafe(db.locks) ==> LockSafe(Kept(db, now, ttl))
  {
  }
}
