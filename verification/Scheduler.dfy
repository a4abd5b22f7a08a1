/** Deterministic admission planning: which QUEUED Issues start this tick, and the ROOT bound and claims that follow. */
module Scheduler {
  import opened Prelude
  import opened Lifecycle
  import opened StateStore
  import opened Locks

  datatype Candidate = Candidate(id: int, root: int, contract: WorkContract)

  datatype Config = Config(
    maxWorkers: nat, capacity: nat, weights: map<string, nat>, mediumWeight: nat, caps: map<string, nat>,
    priority: seq<int>, maxActiveRoots: nat, cpuLimit: real, minFreeMemory: real, locks: LockConfig)

  datatype Snapshot = Snapshot(workers: nat, weightedUsed: nat, cpu: real, freeMemory: real)

  /** Everything `plan` reads: configuration, the store, the machine, and dependencies closed on GitHub. */
  datatype Env = Env(config: Config, db: Db, snap: Snapshot, external: set<int>)

  const IN_FLIGHT: set<State> := {CLAIMED, WORKING, FIX_REQUIRED}

  function InFlight(env: Env): seq<IssueRow> {
    ListDb(env.db, IN_FLIGHT)
  }

  datatype Reason = Starts | WaitsForDependencies | WaitsForLocks | WaitsForResources | WaitsForDomainCap

  /** `reqs` are the locks the decision carries (none when a dependency already made it wait). */
  datatype Decision = Decision(c: Candidate, reason: Reason, reqs: seq<LockReq>)

  /** What one tick has promised so far. */
  datatype Acc = Acc(weight: nat, workers: nat, granted: seq<HeldRow>, active: map<string, nat>,
      decisions: seq<Decision>)

  // --- the single admission checks ---------------------------------------------------------------

  predicate DependencyOk(env: Env, dep: int) {
    if dep in env.db.issues then env.db.issues[dep].state in SATISFIES_DEPENDENCY else dep in env.external
  }

  predicate DependenciesOk(env: Env, c: Candidate) {
    forall dep :: dep in c.contract.dependencies ==> DependencyOk(env, dep)
  }

  function Weight(config: Config, resourceClass: string): nat {
    if resourceClass in config.weights then config.weights[resourceClass] else config.mediumWeight
  }

  predicate CanStartWorker(env: Env, resourceClass: string, weight: nat, workers: nat) {
    && env.snap.workers + workers < env.config.maxWorkers
    && env.snap.weightedUsed + weight + Weight(env.config, resourceClass) <= env.config.capacity
    && env.snap.cpu <= env.config.cpuLimit
    && env.snap.freeMemory >= env.config.minFreeMemory
  }

  function Count(active: map<string, nat>, d: string): nat {
    if d in active then active[d] else 0
  }

  predicate UnderCaps(env: Env, active: map<string, nat>, domains: seq<string>) {
    forall d :: d in domains && d in env.config.caps ==> Count(active, d) < env.config.caps[d]
  }

  function Reqs(env: Env, c: Candidate): seq<LockReq> {
    EffectiveLocks(c.contract, env.config.locks)
  }

  /** The first check that fails, in the planner's order. */
  function ReasonFor(env: Env, acc: Acc, c: Candidate): Reason {
    if !DependenciesOk(env, c) then WaitsForDependencies
    else if !LocksFree(env.db.locks, acc.granted, Reqs(env, c), c.id) then WaitsForLocks
    else if !CanStartWorker(env, c.contract.resourceClass, acc.weight, acc.workers) then WaitsForResources
    else if !UnderCaps(env, acc.active, c.contract.domains) then WaitsForDomainCap
    else Starts
  }

  // --- the plan ----------------------------------------------------------------------------------

  function Bump(active: map<string, nat>, domains: seq<string>): map<string, nat> {
    if domains == [] then active
    else var a := Bump(active, DropLast(domains)); a[Last(domains) := Count(a, Last(domains)) + 1]
  }

  function BumpRows(rows: seq<IssueRow>): map<string, nat> {
    if rows == [] then map[] else Bump(BumpRows(DropLast(rows)), Last(rows).domains)
  }

  function Rows(reqs: seq<LockReq>, id: int): seq<HeldRow> {
    seq(|reqs|, i requires 0 <= i < |reqs| => HeldRow(reqs[i].name, reqs[i].mode, id))
  }

  function Start(env: Env): Acc {
    Acc(0, 0, [], if env.config.caps == map[] then map[] else BumpRows(InFlight(env)), [])
  }

  function Step(env: Env, acc: Acc, c: Candidate): Acc {
    var reason := ReasonFor(env, acc, c);
    if reason == Starts then
      Acc(acc.weight + Weight(env.config, c.contract.resourceClass), acc.workers + 1,
          acc.granted + Rows(Reqs(env, c), c.id), Bump(acc.active, c.contract.domains),
          acc.decisions + [Decision(c, Starts, Reqs(env, c))])
    else
      acc.(decisions := acc.decisions
          + [Decision(c, reason, if reason == WaitsForDependencies then [] else Reqs(env, c))])
  }

  function Fold(env: Env, cs: seq<Candidate>): Acc {
    if cs == [] then Start(env) else Step(env, Fold(env, DropLast(cs)), Last(cs))
  }

  function IndexOf(s: seq<int>, x: int): (i: nat)
    ensures i <= |s|
  {
    if s == [] then 0 else if s[0] == x then 0 else 1 + IndexOf(s[1..], x)
  }

  /** Owner's ROOT priority, then the ROOT number, then the Issue number. */
  predicate Before(config: Config, a: Candidate, b: Candidate) {
    var pa, pb := IndexOf(config.priority, a.root), IndexOf(config.priority, b.root);
    pa < pb || (pa == pb && (a.root < b.root || (a.root == b.root && a.id < b.id)))
  }

  function Insert(config: Config, c: Candidate, sorted: seq<Candidate>): seq<Candidate> {
    if sorted == [] then [c]
    else if Before(config, c, sorted[0]) then [c] + sorted
    else [sorted[0]] + Insert(config, c, sorted[1..])
  }

  function SortByRank(config: Config, queued: seq<Candidate>): seq<Candidate> {
    if queued == [] then [] else Insert(config, queued[0], SortByRank(config, queued[1..]))
  }

  function PlanAcc(env: Env, queued: seq<Candidate>): Acc {
    Fold(env, SortByRank(env.config, queued))
  }

  function PlanOf(env: Env, queued: seq<Candidate>): seq<Decision> {
    PlanAcc(env, queued).decisions
  }

  method Plan(env: Env, store: Store, queued: seq<Candidate>) returns (decisions: seq<Decision>)
    requires store.Contents() == env.db
    ensures decisions == PlanOf(env, queued)
  {
    hide Weight, CanStartWorker, UnderCaps, DependenciesOk, LocksFree, SortByRank, Rows, EffectiveLocks, Count;
    decisions := [];
    var pendingWeight: nat, pendingWorkers: nat := 0, 0;
    var granted: seq<HeldRow> := [];
    var active: map<string, nat> := map[];
    if env.config.caps != map[] {
      var rows := InFlight(env);
      for i := 0 to |rows|
        invariant active == BumpRows(rows[..i])
      {
        assert DropLast(rows[..i + 1]) == rows[..i];
        active := Bump(active, rows[i].domains);
      }
      assert rows[..|rows|] == rows;
    }
    var ordered := SortByRank(env.config, queued);
    for i := 0 to |ordered|
      invariant Acc(pendingWeight, pendingWorkers, granted, active, decisions) == Fold(env, ordered[..i])
    {
      assert DropLast(ordered[..i + 1]) == ordered[..i];
      var c := ordered[i];
      if !DependenciesOk(env, c) {
        decisions := decisions + [Decision(c, WaitsForDependencies, [])];
        continue;
      }
      var reqs := ComputeEffectiveLocks(c.contract, env.config.locks);
      var free := Check(store, c.id, reqs, granted);
      if !free {
        decisions := decisions + [Decision(c, WaitsForLocks, reqs)];
        continue;
      }
      if !CanStartWorker(env, c.contract.resourceClass, pendingWeight, pendingWorkers) {
        decisions := decisions + [Decision(c, WaitsForResources, reqs)];
        continue;
      }
      if !UnderCaps(env, active, c.contract.domains) {
        decisions := decisions + [Decision(c, WaitsForDomainCap, reqs)];
        continue;
      }
      decisions := decisions + [Decision(c, Starts, reqs)];
      pendingWeight := pendingWeight + Weight(env.config, c.contract.resourceClass);
      pendingWorkers := pendingWorkers + 1;
      granted := granted + Rows(reqs, c.id);
      active := Bump(active, c.contract.domains);
    }
    assert ordered[..|ordered|] == ordered;
  }

  // --- determinism -------------------------------------------------------------------------------

  ghost predicate DistinctIds(cs: seq<Candidate>) {
    forall i, j :: 0 <= i < j < |cs| ==> cs[i].id != cs[j].id
  }

  ghost predicate SameIssues(a: seq<Candidate>, b: seq<Candidate>) {
    forall c :: c in a <==> c in b
  }

  ghost predicate Ranked(config: Config, cs: seq<Candidate>) {
    forall i, j :: 0 <= i < j < |cs| ==> Before(config, cs[i], cs[j])
  }

  lemma {:induction false} InsertKeeps(config: Config, c: Candidate, sorted: seq<Candidate>)
    requires forall x :: x in sorted ==> x.id != c.id
    requires Ranked(config, sorted)
    ensures forall x :: x in Insert(config, c, sorted) <==> x == c || x in sorted
    ensures |Insert(config, c, sorted)| == |sorted| + 1
    ensures Ranked(config, Insert(config, c, sorted))
  {
    var r := Insert(config, c, sorted);
    if sorted != [] && !Before(config, c, sorted[0]) {
      assert sorted == [sorted[0]] + sorted[1..];
      InsertKeeps(config, c, sorted[1..]);
      forall j | 0 < j < |r| ensures Before(config, r[0], r[j]) {
        assert r[j] in r[1..];
        assert r[j] == c || r[j] in sorted[1..];
      }
    }
  }

  lemma {:induction false} SortKeeps(config: Config, queued: seq<Candidate>)
    requires DistinctIds(queued)
    ensures SameIssues(SortByRank(config, queued), queued)
    ensures |SortByRank(config, queued)| == |queued|
    ensures Ranked(config, SortByRank(config, queued))
  {
    if queued != [] {
      SortKeeps(config, queued[1..]);
      assert queued == [queued[0]] + queued[1..];
      InsertKeeps(config, queued[0], SortByRank(config, queued[1..]));
    }
  }

  /** A ranking of given Issues is unique. */
  lemma {:induction false} RankingUnique(config: Config, a: seq<Candidate>, b: seq<Candidate>)
    requires SameIssues(a, b) && Ranked(config, a) && Ranked(config, b)
    ensures a == b
  {
    SameEmptiness(a, b);
    if a != [] {
      RankingTail(config, a, b);
      RankingUnique(config, a[1..], b[1..]);
      assert a == [a[0]] + a[1..] && b == [b[0]] + b[1..];
    }
  }

  lemma SameEmptiness(a: seq<Candidate>, b: seq<Candidate>)
    requires SameIssues(a, b)
    ensures a == [] <==> b == []
  {
    if a != [] { assert a[0] in b; }
    if b != [] { assert b[0] in a; }
  }

  lemma RankingTail(config: Config, a: seq<Candidate>, b: seq<Candidate>)
    requires SameIssues(a, b) && Ranked(config, a) && Ranked(config, b) && a != [] && b != []
    ensures a[0] == b[0] && SameIssues(a[1..], b[1..])
  {
    assert a[0] in b && b[0] in a;
    var i :| 0 <= i < |b| && b[i] == a[0];
    var j :| 0 <= j < |a| && a[j] == b[0];
    assert i == 0 || Before(config, b[0], b[i]);
    assert j == 0 || Before(config, a[0], a[j]);
    forall c ensures c in a[1..] <==> c in b[1..] {
      if c in a[1..] {
        var k :| 1 <= k < |a| && a[k] == c;
        assert Before(config, a[0], a[k]) && c in b;
      }
      if c in b[1..] {
        var k :| 1 <= k < |b| && b[k] == c;
        assert Before(config, b[0], b[k]) && c in a;
      }
    }
  }

  /** The plan depends on which Issues are queued, not on the order they were listed in. */
  lemma PlanIgnoresInputOrder(env: Env, q1: seq<Candidate>, q2: seq<Candidate>)
    requires DistinctIds(q1) && DistinctIds(q2) && SameIssues(q1, q2)
    ensures PlanOf(env, q1) == PlanOf(env, q2)
  {
    SortKeeps(env.config, q1);
    SortKeeps(env.config, q2);
    RankingUnique(env.config, SortByRank(env.config, q1), SortByRank(env.config, q2));
  }

  lemma {:induction false} FoldDecides(env: Env, cs: seq<Candidate>)
    ensures |Fold(env, cs).decisions| == |cs|
    ensures forall i :: 0 <= i < |cs| ==> Fold(env, cs).decisions[i].c == cs[i]
  {
    hide ReasonFor, Reqs;
    if cs != [] { FoldDecides(env, DropLast(cs)); }
  }

  lemma {:induction false} FoldPrefix(env: Env, a: seq<Candidate>, b: seq<Candidate>)
    ensures Fold(env, a).decisions <= Fold(env, a + b).decisions
  {
    if b == [] {
      assert a + b == a;
    } else {
      assert DropLast(a + b) == a + DropLast(b);
      FoldPrefix(env, a, DropLast(b));
    }
  }

  lemma RankedParts(config: Config, h: seq<Candidate>, l: seq<Candidate>)
    requires Ranked(config, h) && Ranked(config, l)
    requires forall x, y :: x in h && y in l ==> Before(config, x, y)
    ensures Ranked(config, h + l)
  {
    forall i, j | 0 <= i < j < |h + l| ensures Before(config, (h + l)[i], (h + l)[j]) {
      if i < |h| <= j { assert h[i] in h && l[j - |h|] in l; }
    }
  }

  /** Issues that rank below can never change a decision above them: the plan of everything begins with the plan
      of the higher-ranked part alone. */
  lemma LowerRankedNeverInterfere(env: Env, high: seq<Candidate>, low: seq<Candidate>, queued: seq<Candidate>)
    requires DistinctIds(queued) && DistinctIds(high) && DistinctIds(low)
    requires forall c :: c in queued <==> c in high || c in low
    requires forall h, l :: h in high && l in low ==> Before(env.config, h, l)
    ensures PlanOf(env, high) <= PlanOf(env, queued)
    ensures |PlanOf(env, high)| == |high|
  {
    SortKeeps(env.config, queued);
    SortKeeps(env.config, high);
    SortKeeps(env.config, low);
    var h, l := SortByRank(env.config, high), SortByRank(env.config, low);
    RankedParts(env.config, h, l);
    assert SameIssues(h + l, SortByRank(env.config, queued));
    RankingUnique(env.config, h + l, SortByRank(env.config, queued));
    FoldPrefix(env, h, l);
    FoldDecides(env, h);
  }

  // --- work conservation -------------------------------------------------------------------------

  /** `b` promises at least what `a` promises. */
  ghost predicate Grows(a: Acc, b: Acc) {
    && a.weight <= b.weight && a.workers <= b.workers && a.granted <= b.granted
    && forall d :: Count(a.active, d) <= Count(b.active, d)
  }

  function Occurs(domains: seq<string>, d: string): nat {
    if domains == [] then 0 else Occurs(DropLast(domains), d) + if Last(domains) == d then 1 else 0
  }

  lemma {:induction false} BumpCounts(active: map<string, nat>, domains: seq<string>, d: string)
    ensures Count(Bump(active, domains), d) == Count(active, d) + Occurs(domains, d)
  {
    if domains != [] { BumpCounts(active, DropLast(domains), d); }
  }

  lemma {:induction false} OccursOnce(domains: seq<string>, d: string)
    requires forall i, j :: 0 <= i < j < |domains| ==> domains[i] != domains[j]
    ensures Occurs(domains, d) == if d in domains then 1 else 0
  {
    if domains != [] {
      OccursOnce(DropLast(domains), d);
      assert domains == DropLast(domains) + [Last(domains)];
    }
  }

  lemma StepGrows(env: Env, acc: Acc, c: Candidate)
    ensures Grows(acc, Step(env, acc, c))
  {
    forall d ensures Count(acc.active, d) <= Count(Step(env, acc, c).active, d) {
      BumpCounts(acc.active, c.contract.domains, d);
    }
  }

  /** A check that passes against more promises passes against fewer. */
  lemma StartIsMonotone(env: Env, a: Acc, b: Acc, c: Candidate)
    requires Grows(a, b) && ReasonFor(env, b, c) == Starts
    ensures ReasonFor(env, a, c) == Starts
  {
    assert forall h :: h in a.granted ==> h in b.granted;
  }

  /** Work conservation: an Issue the plan leaves waiting would still be refused against the final set of starts,
      so no slot, lock or cap it could have used is left free. */
  lemma {:induction false} WaitingCouldNotStart(env: Env, cs: seq<Candidate>, i: nat)
    requires i < |cs| && |Fold(env, cs).decisions| == |cs| && Fold(env, cs).decisions[i].reason != Starts
    ensures ReasonFor(env, Fold(env, cs), cs[i]) != Starts
  {
    FoldDecides(env, DropLast(cs));
    var before := Fold(env, DropLast(cs));
    StepGrows(env, before, Last(cs));
    if i < |cs| - 1 { WaitingCouldNotStart(env, DropLast(cs), i); }
    if ReasonFor(env, Fold(env, cs), cs[i]) == Starts {
      StartIsMonotone(env, before, Fold(env, cs), cs[i]);
    }
  }

  lemma PlanIsWorkConserving(env: Env, queued: seq<Candidate>, d: Decision)
    requires DistinctIds(queued) && d in PlanOf(env, queued) && d.reason != Starts
    ensures d.c in queued && ReasonFor(env, PlanAcc(env, queued), d.c) != Starts
  {
    SortKeeps(env.config, queued);
    var cs := SortByRank(env.config, queued);
    FoldDecides(env, cs);
    var i :| 0 <= i < |cs| && PlanOf(env, queued)[i] == d;
    WaitingCouldNotStart(env, cs, i);
    assert cs[i] in cs;
  }

  // --- joint capacity ----------------------------------------------------------------------------

  function Started(ds: seq<Decision>): (r: seq<Candidate>)
    ensures forall c :: c in r <==> exists d :: d in ds && d.reason == Starts && d.c == c
  {
    if ds == [] then []
    else
      assert ds == DropLast(ds) + [Last(ds)];
      Started(DropLast(ds)) + if Last(ds).reason == Starts then [Last(ds).c] else []
  }

  function TotalWeight(config: Config, cs: seq<Candidate>): nat {
    if cs == [] then 0 else TotalWeight(config, DropLast(cs)) + Weight(config, Last(cs).contract.resourceClass)
  }

  function InDomain(cs: seq<Candidate>, d: string): nat {
    if cs == [] then 0 else InDomain(DropLast(cs), d) + if d in Last(cs).contract.domains then 1 else 0
  }

  /** Issue contracts list a domain once (the parser drops repetitions). */
  ghost predicate DistinctDomains(cs: seq<Candidate>) {
    forall c, i, j :: c in cs && 0 <= i < j < |c.contract.domains| ==> c.contract.domains[i] != c.contract.domains[j]
  }

  /** The bounds that hold jointly for everything started so far. */
  ghost predicate WithinCapacity(env: Env, started: seq<Candidate>) {
    && (started != [] ==> env.snap.workers + |started| <= env.config.maxWorkers)
    && (started != [] ==> env.snap.weightedUsed + TotalWeight(env.config, started) <= env.config.capacity)
    && (started != [] ==> env.snap.cpu <= env.config.cpuLimit && env.snap.freeMemory >= env.config.minFreeMemory)
    && (forall c :: c in started ==> DependenciesOk(env, c))
    && (forall c, d :: c in started && d in c.contract.domains && d in env.config.caps ==>
          Count(BumpRows(InFlight(env)), d) + InDomain(started, d) <= env.config.caps[d])
  }

  lemma {:induction false} FoldAccounts(env: Env, cs: seq<Candidate>)
    requires DistinctDomains(cs)
    ensures var acc, started := Fold(env, cs), Started(Fold(env, cs).decisions);
            && acc.workers == |started| && acc.weight == TotalWeight(env.config, started)
            && (forall d :: Count(acc.active, d) == Count(Start(env).active, d) + InDomain(started, d))
  {
    hide LocksFree, Reqs, Rows, UnderCaps, CanStartWorker, DependenciesOk, BumpRows;
    if cs != [] {
      var before, c, acc := Fold(env, DropLast(cs)), Last(cs), Fold(env, cs);
      assert cs == DropLast(cs) + [c];
      assert c in cs;
      FoldAccounts(env, DropLast(cs));
      assert DropLast(acc.decisions) == before.decisions;
      if ReasonFor(env, before, c) == Starts {
        assert Started(acc.decisions) == Started(before.decisions) + [c];
        assert DropLast(Started(acc.decisions)) == Started(before.decisions) && Last(Started(acc.decisions)) == c;
        assert acc.weight == TotalWeight(env.config, Started(acc.decisions));
        forall d ensures Count(acc.active, d) == Count(Start(env).active, d) + InDomain(Started(acc.decisions), d) {
          BumpCounts(before.active, c.contract.domains, d);
          OccursOnce(c.contract.domains, d);
        }
      } else {
        assert Started(acc.decisions) == Started(before.decisions);
      }
    }
  }

  /** A start that passes the caps keeps every capped domain within its cap. */
  lemma CapsHold(env: Env, started: seq<Candidate>, c: Candidate, active: map<string, nat>)
    requires UnderCaps(env, active, c.contract.domains)
    requires forall d :: d in env.config.caps ==>
        Count(active, d) == Count(BumpRows(InFlight(env)), d) + InDomain(started, d)
    requires forall x, d :: x in started && d in x.contract.domains && d in env.config.caps ==>
               Count(BumpRows(InFlight(env)), d) + InDomain(started, d) <= env.config.caps[d]
    ensures forall x, d :: x in started + [c] && d in x.contract.domains && d in env.config.caps ==>
              Count(BumpRows(InFlight(env)), d) + InDomain(started + [c], d) <= env.config.caps[d]
  {
    hide Count, BumpRows;
    assert DropLast(started + [c]) == started;
    forall x, d | x in started + [c] && d in x.contract.domains && d in env.config.caps
      ensures Count(BumpRows(InFlight(env)), d) + InDomain(started + [c], d) <= env.config.caps[d]
    {
      if d !in c.contract.domains { assert x in started; }
    }
  }

  lemma StartKeepsCapacity(env: Env, started: seq<Candidate>, acc: Acc, c: Candidate)
    requires WithinCapacity(env, started) && ReasonFor(env, acc, c) == Starts
    requires acc.workers == |started| && acc.weight == TotalWeight(env.config, started)
    requires forall d :: d in env.config.caps ==>
        Count(acc.active, d) == Count(BumpRows(InFlight(env)), d) + InDomain(started, d)
    ensures WithinCapacity(env, started + [c])
  {
    hide LocksFree, Reqs, DependenciesOk, BumpRows, Count, Weight, UnderCaps;
    assert DropLast(started + [c]) == started;
    CapsHold(env, started, c, acc.active);
  }

  lemma NothingStarted(env: Env)
    ensures WithinCapacity(env, [])
  {
  }

  lemma StartedNext(env: Env, before: Acc, c: Candidate)
    ensures Started(Step(env, before, c).decisions)
         == Started(before.decisions) + if ReasonFor(env, before, c) == Starts then [c] else []
  {
    hide ReasonFor, Reqs;
    assert DropLast(Step(env, before, c).decisions) == before.decisions;
  }

  lemma {:induction false} FoldWithinCapacity(env: Env, cs: seq<Candidate>)
    requires DistinctDomains(cs)
    ensures WithinCapacity(env, Started(Fold(env, cs).decisions))
  {
    hide Reqs, Rows, BumpRows, ReasonFor, Bump, Count, WithinCapacity, Step, InDomain, TotalWeight;
    NothingStarted(env);
    if cs != [] {
      var before, c := Fold(env, DropLast(cs)), Last(cs);
      assert DistinctDomains(DropLast(cs)) by { FewerDomains(cs); }
      FoldWithinCapacity(env, DropLast(cs));
      FoldAccounts(env, DropLast(cs));
      StartedNext(env, before, c);
      var started := Started(before.decisions);
      assert started + [] == started;
      if ReasonFor(env, before, c) == Starts { StartKeepsCapacity(env, started, before, c); }
    }
  }

  lemma FewerDomains(cs: seq<Candidate>)
    requires cs != [] && DistinctDomains(cs)
    ensures DistinctDomains(DropLast(cs))
  {
    assert forall c :: c in DropLast(cs) ==> c in cs;
  }

  /** Whatever is queued, the starts of one plan together stay within the worker slots, the weighted capacity, the
      machine limits and every domain cap, and each has all its dependencies satisfied. */
  lemma PlanWithinCapacity(env: Env, queued: seq<Candidate>)
    requires DistinctIds(queued) && DistinctDomains(queued)
    ensures WithinCapacity(env, Started(PlanOf(env, queued)))
  {
    SortKeeps(env.config, queued);
    FoldWithinCapacity(env, SortByRank(env.config, queued));
  }

  /** The Issues in flight that count against a domain's cap. */
  ghost function InFlightIn(env: Env, d: string): set<int> {
    set id | id in env.db.issues && env.db.issues[id].state in IN_FLIGHT && d in env.db.issues[id].domains
  }

  lemma {:induction false} RowsCounted(db: Db, ids: set<int>, d: string)
    requires ids <= db.issues.Keys
    requires forall id, i, j :: id in ids && 0 <= i < j < |db.issues[id].domains| ==>
               db.issues[id].domains[i] != db.issues[id].domains[j]
    ensures TotalOccurs(RowsOf(db, Upwards(ids)), d) == |set id | id in ids && d in db.issues[id].domains|
  {
    var here := set id | id in ids && d in db.issues[id].domains;
    if ids == {} {
      assert here == {};
    } else {
      var least := Upwards(ids)[0];
      var others := ids - {least};
      RowsCounted(db, others, d);
      OccursOnce(db.issues[least].domains, d);
      assert RowsOf(db, Upwards(ids))[1..] == RowsOf(db, Upwards(others));
      assert here - {least} == set id | id in others && d in db.issues[id].domains;
    }
  }

  function TotalOccurs(rows: seq<IssueRow>, d: string): nat {
    if rows == [] then 0 else Occurs(rows[0].domains, d) + TotalOccurs(rows[1..], d)
  }

  lemma {:induction false} TotalOccursLast(rows: seq<IssueRow>, d: string)
    requires rows != []
    ensures TotalOccurs(rows, d) == TotalOccurs(DropLast(rows), d) + Occurs(Last(rows).domains, d)
  {
    if |rows| > 1 {
      TotalOccursLast(rows[1..], d);
      assert DropLast(rows)[1..] == DropLast(rows[1..]);
    }
  }

  lemma {:induction false} BumpRowsCounts(rows: seq<IssueRow>, d: string)
    ensures Count(BumpRows(rows), d) == TotalOccurs(rows, d)
  {
    if rows != [] {
      BumpRowsCounts(DropLast(rows), d);
      BumpCounts(BumpRows(DropLast(rows)), Last(rows).domains, d);
      TotalOccursLast(rows, d);
    }
  }

  /** What the caps bound: whenever a plan starts an Issue of a capped domain, the Issues of that domain in flight in
      the store and those the plan starts are together within the cap. */
  lemma CapsBoundIssuesInFlight(env: Env, queued: seq<Candidate>, c: Candidate, d: string)
    requires DistinctIds(queued) && DistinctDomains(queued)
    requires forall id, i, j :: id in env.db.issues && 0 <= i < j < |env.db.issues[id].domains| ==>
               env.db.issues[id].domains[i] != env.db.issues[id].domains[j]
    requires c in Started(PlanOf(env, queued)) && d in c.contract.domains && d in env.config.caps
    ensures |InFlightIn(env, d)| + InDomain(Started(PlanOf(env, queued)), d) <= env.config.caps[d]
  {
    hide PlanOf, Started, InDomain, Occurs, DistinctDomains, DistinctIds;
    PlanWithinCapacity(env, queued);
    var ids := IdsIn(env.db, IN_FLIGHT);
    BumpRowsCounts(InFlight(env), d);
    RowsCounted(env.db, ids, d);
    assert InFlightIn(env, d) == set id | id in ids && d in env.db.issues[id].domains;
  }

  // --- the ROOT bound ----------------------------------------------------------------------------

  /** The starts `schedule` keeps: a start that would open a ROOT beyond the free ones becomes a wait. */
  function SelectRoots(ds: seq<Decision>, active: set<int>, maxActive: nat): (r: (seq<Decision>, set<int>)) {
    if ds == [] then ([], {})
    else
      var (kept, newRoots) := SelectRoots(DropLast(ds), active, maxActive);
      var d := Last(ds);
      if d.reason != Starts then (kept, newRoots)
      else if d.c.root in active || d.c.root in newRoots then (kept + [d], newRoots)
      else if |newRoots| >= if maxActive > |active| then maxActive - |active| else 0 then (kept, newRoots)
      else (kept + [d], newRoots + {d.c.root})
  }

  method SelectStarts(ds: seq<Decision>, active: set<int>, maxActive: nat)
      returns (kept: seq<Decision>, newRoots: set<int>)
    ensures (kept, newRoots) == SelectRoots(ds, active, maxActive)
  {
    kept, newRoots := [], {};
    var free := maxActive - |active|;
    for i := 0 to |ds|
      invariant (kept, newRoots) == SelectRoots(ds[..i], active, maxActive)
    {
      assert DropLast(ds[..i + 1]) == ds[..i];
      var d := ds[i];
      if d.reason == Starts {
        if d.c.root !in active && d.c.root !in newRoots {
          if |newRoots| >= if free > 0 then free else 0 { continue; }
          newRoots := newRoots + {d.c.root};
        }
        kept := kept + [d];
      }
    }
    assert ds[..|ds|] == ds;
  }

  /** After `schedule` the ROOTs in flight stay within the limit, unless more were already active, in which case
      no new ROOT opens at all. */
  lemma {:induction false} RootsStayBounded(ds: seq<Decision>, active: set<int>, maxActive: nat)
    ensures var (kept, newRoots) := SelectRoots(ds, active, maxActive);
            && |active + newRoots| <= (if maxActive > |active| then maxActive else |active|)
            && active !! newRoots
            && (forall d :: d in kept ==> d in ds && d.reason == Starts && d.c.root in active + newRoots)
  {
    if ds != [] {
      RootsStayBounded(DropLast(ds), active, maxActive);
      var (_, before) := SelectRoots(DropLast(ds), active, maxActive);
      var (kept, newRoots) := SelectRoots(ds, active, maxActive);
      assert ds == DropLast(ds) + [Last(ds)];
      assert |active + before| == |active| + |before| && |active + newRoots| == |active| + |newRoots|;
    }
  }

  // --- plan / claim refinement -------------------------------------------------------------------

  /** One claim: compare-and-set to CLAIMED, take the locks, and fall back to QUEUED when they clash. */
  function ClaimDb(db: Db, d: Decision, now: real): Db {
    var (claimed, res) := TransitionDb(db, d.c.id, CLAIMED, Some([QUEUED]), [], now);
    if res != Done then db
    else
      var (locked, conflicts) := AcquireDb(claimed, d.c.id, d.reqs, now);
      if conflicts == {} then locked else TransitionDb(claimed, d.c.id, QUEUED, None, [], now).0
  }

  method Claim(store: Store, d: Decision, now: real)
    modifies store
    ensures store.Contents() == ClaimDb(old(store.Contents()), d, now)
  {
    var res := store.Transition(d.c.id, CLAIMED, Some([QUEUED]), [], now);
    if res != Done { return; }
    var conflicts := store.TryAcquireLocks(d.c.id, d.reqs, now);
    if conflicts != [] {
      var _ := store.Transition(d.c.id, QUEUED, None, [], now);
    }
  }

  /** Claiming, in plan order, those starts whose Issue is in `chosen`. */
  function ClaimChosen(db: Db, ds: seq<Decision>, chosen: set<int>, now: real): Db {
    if ds == [] then db
    else
      LastClaim(ClaimChosen(db, DropLast(ds), chosen, now), Last(ds), chosen, now)
  }

  function LastClaim(before: Db, d: Decision, chosen: set<int>, now: real): Db {
    if d.reason == Starts && d.c.id in chosen then ClaimDb(before, d, now) else before
  }

  /** Claimed, with every lock the decision asks for, in a mode it asks for. */
  ghost predicate Claimed(db: Db, d: Decision) {
    && d.c.id in db.issues && db.issues[d.c.id].state == CLAIMED
    && forall r :: r in d.reqs ==>
          (r.name, d.c.id) in db.locks && LockReq(r.name, db.locks[(r.name, d.c.id)].mode) in d.reqs
  }

  /** How the real lock table looks after claiming: the rows it had, or rows the simulation granted. */
  ghost predicate TableAgrees(env: Env, granted: seq<HeldRow>, db: Db) {
    forall k :: k in db.locks ==>
      (k in env.db.locks && db.locks[k] == env.db.locks[k]) || HeldRow(k.0, db.locks[k].mode, k.1) in granted
  }

  lemma NoConflicts(env: Env, granted: seq<HeldRow>, db: Db, c: Candidate, reqs: seq<LockReq>)
    requires TableAgrees(env, granted, db) && LocksFree(env.db.locks, granted, reqs, c.id)
    ensures AllConflicts(db.locks, reqs, c.id) == {}
  {
    ConflictsAre(db.locks, reqs, c.id);
    forall k, r | k in db.locks && r in reqs ensures !Clashes(k, db.locks[k], r, c.id) {
      if !(k in env.db.locks && db.locks[k] == env.db.locks[k]) {
        assert !GrantClashes(HeldRow(k.0, db.locks[k].mode, k.1), r, c.id);
      }
    }
  }

  lemma ClaimSucceeds(env: Env, acc: Acc, db: Db, c: Candidate, now: real)
    requires TableAgrees(env, acc.granted, db) && ReasonFor(env, acc, c) == Starts
    requires c.id in db.issues && db.issues[c.id].state == QUEUED
    ensures var d := Decision(c, Starts, Reqs(env, c)); var db' := ClaimDb(db, d, now);
            && Claimed(db', d) && db'.issues.Keys == db.issues.Keys
            && (forall id :: id in db.issues && id != c.id ==> db'.issues[id] == db.issues[id])
            && (forall k :: k in db.locks ==> k in db'.locks && (k.1 != c.id ==> db'.locks[k] == db.locks[k]))
            && TableAgrees(env, acc.granted + Rows(Reqs(env, c), c.id), db')
  {
    hide LocksFree, CanStartWorker, UnderCaps, DependenciesOk, EffectiveLocks, AllConflicts, Granted, SetFields;
    var reqs := Reqs(env, c);
    var claimed := TransitionDb(db, c.id, CLAIMED, Some([QUEUED]), [], now).0;
    NoConflicts(env, acc.granted, claimed, c, reqs);
    GrantedCells(db.locks, reqs, c.id, now);
    var db' := ClaimDb(db, Decision(c, Starts, reqs), now);
    forall k | k in db'.locks && !(k in env.db.locks && db'.locks[k] == env.db.locks[k])
      ensures HeldRow(k.0, db'.locks[k].mode, k.1) in acc.granted + Rows(reqs, c.id)
    {
      if k !in db.locks || db'.locks[k] != db.locks[k] {
        var i :| 0 <= i < |reqs| && reqs[i] == LockReq(k.0, db'.locks[k].mode);
        assert Rows(reqs, c.id)[i] == HeldRow(k.0, db'.locks[k].mode, k.1);
      }
    }
  }

  ghost predicate OneRowPerIssue(cs: seq<Candidate>) {
    forall x, y :: x in cs && y in cs && x.id == y.id ==> x == y
  }

  /** The chosen starts among the decisions on `cs` are claimed, and no Issue outside `cs` moved. */
  ghost predicate Followed(env: Env, cs: seq<Candidate>, acc: Acc, chosen: set<int>, db: Db) {
    && TableAgrees(env, acc.granted, db) && db.issues.Keys == env.db.issues.Keys
    && (forall d :: d in acc.decisions && d.reason == Starts && d.c.id in chosen ==> Claimed(db, d))
    && (forall id :: id in env.db.issues && (forall c :: c in cs ==> c.id != id) ==> db.issues[id] == env.db.issues[id])
  }

  lemma FollowStep(env: Env, rest: seq<Candidate>, c: Candidate, chosen: set<int>, before: Acc, acc: Acc, db: Db,
      db': Db)
    requires Followed(env, rest, before, chosen, db) && (forall x :: x in rest ==> x.id != c.id)
    requires forall d :: d in before.decisions ==> d.c in rest
    requires acc.decisions != [] && DropLast(acc.decisions) == before.decisions && Last(acc.decisions).c == c
    requires before.granted <= acc.granted && TableAgrees(env, acc.granted, db')
    requires db'.issues.Keys == db.issues.Keys
    requires (forall k :: k in db.locks ==> k in db'.locks && (k.1 != c.id ==> db'.locks[k] == db.locks[k]))
    requires forall id :: id in db.issues && id != c.id ==> db'.issues[id] == db.issues[id]
    requires Last(acc.decisions).reason == Starts && c.id in chosen ==> Claimed(db', Last(acc.decisions))
    ensures Followed(env, rest + [c], acc, chosen, db')
  {
    forall d | d in acc.decisions && d.reason == Starts && d.c.id in chosen ensures Claimed(db', d) {
      if d != Last(acc.decisions) {
        assert acc.decisions == DropLast(acc.decisions) + [Last(acc.decisions)];
        assert d in before.decisions && d.c.id != c.id;
      }
    }
    forall id | id in env.db.issues && (forall x :: x in rest + [c] ==> x.id != id)
      ensures db'.issues[id] == env.db.issues[id]
    {
      assert c in rest + [c] && forall x :: x in rest ==> x in rest + [c];
    }
  }

  lemma FollowNext(env: Env, rest: seq<Candidate>, c: Candidate, chosen: set<int>, before: Acc, db: Db, now: real)
    requires Followed(env, rest, before, chosen, db) && (forall x :: x in rest ==> x.id != c.id)
    requires forall d :: d in before.decisions ==> d.c in rest
    requires c.id in env.db.issues && env.db.issues[c.id].state == QUEUED
    ensures var acc := Step(env, before, c);
        Followed(env, rest + [c], acc, chosen, LastClaim(db, Last(acc.decisions), chosen, now))
  {
    var acc := Step(env, before, c);
    var db' := LastClaim(db, Last(acc.decisions), chosen, now);
    assert DropLast(acc.decisions) == before.decisions;
    assert db.issues[c.id] == env.db.issues[c.id];
    if ReasonFor(env, before, c) == Starts && c.id in chosen {
      ClaimSucceeds(env, before, db, c, now);
    }
    FollowStep(env, rest, c, chosen, before, acc, db, db');
  }

  lemma {:induction false} ClaimsFollowPlan(env: Env, cs: seq<Candidate>, chosen: set<int>, now: real)
    requires Ranked(env.config, cs) && OneRowPerIssue(cs)
    requires forall c :: c in cs ==> c.id in env.db.issues && env.db.issues[c.id].state == QUEUED
    ensures Followed(env, cs, Fold(env, cs), chosen, ClaimChosen(env.db, Fold(env, cs).decisions, chosen, now))
  {
    if cs != [] {
      var rest, c := DropLast(cs), Last(cs);
      var before, acc := Fold(env, rest), Fold(env, cs);
      assert cs == rest + [c] && c in cs;
      LastDiffers(env, cs);
      ClaimsFollowPlan(env, rest, chosen, now);
      DecidedOnly(env, rest);
      var db := ClaimChosen(env.db, before.decisions, chosen, now);
      FollowNext(env, rest, c, chosen, before, db, now);
      assert acc == Step(env, before, c) && DropLast(acc.decisions) == before.decisions;
      assert ClaimChosen(env.db, acc.decisions, chosen, now) == LastClaim(db, Last(acc.decisions), chosen, now);
    }
  }

  lemma DecidedOnly(env: Env, cs: seq<Candidate>)
    ensures forall d :: d in Fold(env, cs).decisions ==> d.c in cs
  {
    FoldDecides(env, cs);
    forall d | d in Fold(env, cs).decisions ensures d.c in cs {
      var i :| 0 <= i < |cs| && Fold(env, cs).decisions[i] == d;
    }
  }

  lemma LastDiffers(env: Env, cs: seq<Candidate>)
    requires cs != [] && Ranked(env.config, cs) && OneRowPerIssue(cs)
    ensures forall x :: x in DropLast(cs) ==> x.id != Last(cs).id
    ensures OneRowPerIssue(DropLast(cs)) && Ranked(env.config, DropLast(cs))
  {
    forall x | x in DropLast(cs) ensures x.id != Last(cs).id {
      var i :| 0 <= i < |cs| - 1 && cs[i] == x;
      assert Before(env.config, cs[i], cs[|cs| - 1]) && x in cs && Last(cs) in cs;
    }
  }

  /** Plan / claim refinement: with no concurrent writer, claiming any sub-selection of the planned starts in order
      through the real lock table never conflicts. Every chosen Issue ends CLAIMED with all its locks in the modes asked
      for (none bounces back to QUEUED), no other queued or unqueued Issue moves, and the table holds nothing that was
      neither there before nor granted by the simulation. */
  lemma ClaimsNeverConflict(env: Env, queued: seq<Candidate>, chosen: set<int>, now: real)
    requires DistinctIds(queued)
    requires forall c :: c in queued ==> c.id in env.db.issues && env.db.issues[c.id].state == QUEUED
    ensures var acc := PlanAcc(env, queued); var db := ClaimChosen(env.db, acc.decisions, chosen, now);
            && (forall d :: d in acc.decisions && d.reason == Starts && d.c.id in chosen ==> Claimed(db, d))
            && db.issues.Keys == env.db.issues.Keys
            && (forall id :: id in env.db.issues && (forall c :: c in queued ==> c.id != id) ==>
                  db.issues[id] == env.db.issues[id])
            && TableAgrees(env, acc.granted, db)
  {
    SortKeeps(env.config, queued);
    ClaimsFollowPlan(env, SortByRank(env.config, queued), chosen, now);
  }

  // --- what the snapshot counts --------------------------------------------------------------------

  function RowsWeight(config: Config, rows: seq<IssueRow>): nat {
    if rows == [] then 0 else Weight(config, rows[0].resourceClass) + RowsWeight(config, rows[1..])
  }

  /** The reviewers at work: rows in REVIEW with an agent. */
  ghost function Reviewing(db: Db): set<int> {
    set id | id in db.issues && db.issues[id].state == REVIEW && db.issues[id].agent !in {None, Some("")}
  }

  function Assigned(rows: seq<IssueRow>): seq<IssueRow> {
    if rows == [] then []
    else (if rows[0].agent in {None, Some("")} then [] else [rows[0]]) + Assigned(rows[1..])
  }

  /** The snapshot `schedule` takes of the store and the machine. */
  function Taken(config: Config, db: Db, cpu: real, freeMemory: real): Snapshot
    requires "LIGHT" in config.weights
  {
    var workers, reviewers := ListDb(db, {WORKING}), Assigned(ListDb(db, {REVIEW}));
    Snapshot(|workers|, RowsWeight(config, workers) + |reviewers| * config.weights["LIGHT"], cpu, freeMemory)
  }

  lemma {:induction false} UpwardsCounts(ids: set<int>)
    ensures |Upwards(ids)| == |ids|
  {
    if ids != {} {
      var least := Upwards(ids)[0];
      UpwardsCounts(ids - {least});
    }
  }

  lemma {:induction false} AssignedCounted(db: Db, ids: set<int>)
    requires ids <= db.issues.Keys
    ensures |Assigned(RowsOf(db, Upwards(ids)))| == |set id | id in ids && db.issues[id].agent !in {None, Some("")}|
  {
    var here := set id | id in ids && db.issues[id].agent !in {None, Some("")};
    if ids == {} {
      assert here == {};
    } else {
      var least := Upwards(ids)[0];
      var others := ids - {least};
      AssignedCounted(db, others);
      assert RowsOf(db, Upwards(ids))[1..] == RowsOf(db, Upwards(others));
      assert here - {least} == set id | id in others && db.issues[id].agent !in {None, Some("")};
    }
  }

  /** With the snapshot of the store it plans for, a plan that starts anything keeps the store's Issues in WORKING and
      its starts together within the worker slots, and with the reviewers at work within the weighted capacity. */
  lemma CapacityBoundsWorkingIssues(env: Env, queued: seq<Candidate>)
    requires DistinctIds(queued) && DistinctDomains(queued) && "LIGHT" in env.config.weights
    requires env.snap == Taken(env.config, env.db, env.snap.cpu, env.snap.freeMemory)
    requires Started(PlanOf(env, queued)) != []
    ensures var started := Started(PlanOf(env, queued));
            && |IdsIn(env.db, {WORKING})| + |started| <= env.config.maxWorkers
            && RowsWeight(env.config, ListDb(env.db, {WORKING}))
               + |Reviewing(env.db)| * env.config.weights["LIGHT"]
               + TotalWeight(env.config, started) <= env.config.capacity
  {
    hide PlanOf, Started, TotalWeight, RowsWeight, DistinctDomains, DistinctIds;
    PlanWithinCapacity(env, queued);
    UpwardsCounts(IdsIn(env.db, {WORKING}));
    AssignedCounted(env.db, IdsIn(env.db, {REVIEW}));
    assert Reviewing(env.db) ==
      set id | id in IdsIn(env.db, {REVIEW}) && env.db.issues[id].agent !in {None, Some("")};
  }

  lemma {:induction false} SameRows(db: Db, after: Db, ids: set<int>)
    requires ids <= db.issues.Keys && ids <= after.issues.Keys
    requires forall id :: id in ids ==> after.issues[id] == db.issues[id]
    ensures RowsOf(after, Upwards(ids)) == RowsOf(db, Upwards(ids))
  {
    if ids != {} {
      var least := Upwards(ids)[0];
      SameRows(db, after, ids - {least});
    }
  }

  /** But only Issues in WORKING count as workers: one that is claimed and whose worker has not begun yet is not in the
      snapshot of the next plan. */
  lemma ClaimedIsNotCounted(config: Config, db: Db, d: Decision, now: real, cpu: real, free: real)
    requires "LIGHT" in config.weights
    ensures Taken(config, ClaimDb(db, d, now), cpu, free) == Taken(config, db, cpu, free)
  {
    hide RowsWeight, Assigned, Granted, AllConflicts;
    var after := ClaimDb(db, d, now);
    assert IdsIn(after, {WORKING}) == IdsIn(db, {WORKING}) && IdsIn(after, {REVIEW}) == IdsIn(db, {REVIEW});
    SameRows(db, after, IdsIn(db, {WORKING}));
    SameRows(db, after, IdsIn(db, {REVIEW}));
  }

  function Begins(env: Env, c: Candidate): Decision {
    Decision(c, Starts, Reqs(env, c))
  }

  lemma LonePlan(env: Env, c: Candidate)
    requires c.contract.dependencies == [] && env.config.caps == map[]
    requires LocksFree(env.db.locks, [], Reqs(env, c), c.id) && CanStartWorker(env, c.contract.resourceClass, 0, 0)
    ensures PlanOf(env, [c]) == [Begins(env, c)]
  {
    hide LocksFree, CanStartWorker;
    assert [c][1..] == [] && SortByRank(env.config, []) == [];
    assert SortByRank(env.config, [c]) == [c];
    assert DropLast([c]) == [] && Fold(env, []) == Start(env);
    assert ReasonFor(env, Start(env), c) == Starts;
    assert PlanOf(env, [c]) == [] + [Begins(env, c)];
  }

  lemma LoneClaim(env: Env, c: Candidate, now: real)
    requires PlanOf(env, [c]) == [Begins(env, c)]
    requires c.id in env.db.issues && env.db.issues[c.id].state == QUEUED
    ensures var d := Begins(env, c);
            var db := ClaimDb(env.db, d, now);
            && Claimed(db, d) && db.issues.Keys == env.db.issues.Keys
            && forall id :: id in env.db.issues && id != c.id ==> db.issues[id] == env.db.issues[id]
  {
    hide ClaimDb, Claimed, TableAgrees;
    ClaimsNeverConflict(env, [c], {c.id}, now);
    var ds := [Begins(env, c)];
    assert PlanAcc(env, [c]).decisions == ds && DropLast(ds) == [] && ds[0] in ds;
    assert ClaimChosen(env.db, ds, {c.id}, now) == ClaimDb(env.db, ds[0], now);
  }

  /** Two Issues wait for nothing but a worker, the snapshot is fresh, and there is capacity for either. */
  ghost predicate TwoWaiting(env: Env, c: Candidate, d: Candidate) {
    && "LIGHT" in env.config.weights && env.config.caps == map[]
    && env.snap == Taken(env.config, env.db, env.snap.cpu, env.snap.freeMemory)
    && c.id != d.id && c.id in env.db.issues && d.id in env.db.issues
    && env.db.issues[c.id].state == env.db.issues[d.id].state == QUEUED
    && c.contract.dependencies == d.contract.dependencies == []
    && c.contract.resourceClass == d.contract.resourceClass
    && LocksFree(env.db.locks, [], Reqs(env, c), c.id) && CanStartWorker(env, c.contract.resourceClass, 0, 0)
  }

  /** The store once the Issue is claimed, with a snapshot of it. */
  function Following(env: Env, c: Candidate, now: real): Env
    requires "LIGHT" in env.config.weights
  {
    var db := ClaimDb(env.db, Begins(env, c), now);
    env.(db := db, snap := Taken(env.config, db, env.snap.cpu, env.snap.freeMemory))
  }

  ghost predicate BothClaimed(db: Db, id: int, other: int) {
    && id in db.issues && db.issues[id].state == CLAIMED
    && other in db.issues && db.issues[other].state == CLAIMED
  }

  /** So the last slot is given away twice: two plans in a row, each with a snapshot of its own, start and claim an
      Issue each if the first one's worker is late. */
  lemma LastSlotTwice(env: Env, c: Candidate, d: Candidate, now: real)
    requires TwoWaiting(env, c, d) && |IdsIn(env.db, {WORKING})| + 1 == env.config.maxWorkers
    ensures var next := Following(env, c, now);
            && PlanOf(env, [c]) == [Begins(env, c)] && Claimed(next.db, Begins(env, c))
            && (LocksFree(next.db.locks, [], Reqs(next, d), d.id) ==>
                  && PlanOf(next, [d]) == [Begins(next, d)]
                  && BothClaimed(ClaimDb(next.db, Begins(next, d), now), c.id, d.id))
  {
    hide PlanOf, LocksFree, Taken, ClaimDb;
    LonePlan(env, c);
    LoneClaim(env, c, now);
    ClaimedIsNotCounted(env.config, env.db, Begins(env, c), now, env.snap.cpu, env.snap.freeMemory);
    var next := Following(env, c, now);
    if LocksFree(next.db.locks, [], Reqs(next, d), d.id) {
      LonePlan(next, d);
      LoneClaim(next, d, now);
    }
  }

  // --- by how much the slots can be exceeded -------------------------------------------------------

  function StartedIds(ds: seq<Decision>, chosen: set<int>): set<int> {
    set d | d in ds && d.reason == Starts && d.c.id in chosen :: d.c.id
  }

  lemma {:induction false} StartedIdsCount(ds: seq<Decision>, chosen: set<int>)
    ensures |StartedIds(ds, chosen)| <= |Started(ds)|
  {
    if ds != [] {
      var before, d := DropLast(ds), Last(ds);
      StartedIdsCount(before, chosen);
      assert ds == before + [d];
      var new_ := if d.reason == Starts && d.c.id in chosen then {d.c.id} else {};
      assert StartedIds(ds, chosen) == StartedIds(before, chosen) + new_;
    }
  }

  lemma {:induction false} ClaimsLeaveTheRest(db: Db, ds: seq<Decision>, chosen: set<int>, now: real, id: int)
    requires id in db.issues && id !in StartedIds(ds, chosen)
    ensures var after := ClaimChosen(db, ds, chosen, now); id in after.issues && after.issues[id] == db.issues[id]
  {
    hide AllConflicts, Granted;
    if ds != [] {
      var before, d := DropLast(ds), Last(ds);
      assert ds == before + [d];
      assert forall x :: x in before ==> x in ds;
      ClaimsLeaveTheRest(db, before, chosen, now, id);
      assert d in ds;
    }
  }

  /** With a fresh snapshot, and whichever of its starts are then claimed: the Issues claimed or at work afterwards are
      those before and the claimed starts, and they exceed the worker slots at most by the Issues that were claimed at
      the snapshot and whose worker had not begun. Without such an Issue the slots hold. */
  lemma SlotsExceededAtMost(env: Env, queued: seq<Candidate>, chosen: set<int>, now: real)
    requires DistinctIds(queued) && DistinctDomains(queued) && "LIGHT" in env.config.weights
    requires forall c :: c in queued ==> c.id in env.db.issues && env.db.issues[c.id].state == QUEUED
    requires env.snap == Taken(env.config, env.db, env.snap.cpu, env.snap.freeMemory)
    requires Started(PlanOf(env, queued)) != []
    ensures var after := ClaimChosen(env.db, PlanOf(env, queued), chosen, now);
            var busy := IdsIn(after, {CLAIMED, WORKING});
            && busy == IdsIn(env.db, {CLAIMED, WORKING}) + StartedIds(PlanOf(env, queued), chosen)
            && |busy| <= env.config.maxWorkers + |IdsIn(env.db, {CLAIMED})|
  {
    hide PlanOf, Started, ClaimChosen, Taken, DistinctIds, DistinctDomains, Claimed, TableAgrees;
    var ds := PlanOf(env, queued);
    var after, starts := ClaimChosen(env.db, ds, chosen, now), StartedIds(ds, chosen);
    CapacityBoundsWorkingIssues(env, queued);
    StartedIdsCount(ds, chosen);
    BusyAfterClaims(env, queued, chosen, now);
    assert IdsIn(env.db, {CLAIMED, WORKING}) == IdsIn(env.db, {CLAIMED}) + IdsIn(env.db, {WORKING});
  }

  lemma BusyAfterClaims(env: Env, queued: seq<Candidate>, chosen: set<int>, now: real)
    requires DistinctIds(queued)
    requires forall c :: c in queued ==> c.id in env.db.issues && env.db.issues[c.id].state == QUEUED
    ensures var after := ClaimChosen(env.db, PlanOf(env, queued), chosen, now);
            IdsIn(after, {CLAIMED, WORKING}) ==
            IdsIn(env.db, {CLAIMED, WORKING}) + StartedIds(PlanOf(env, queued), chosen)
  {
    hide PlanAcc, ClaimChosen, DistinctIds, TableAgrees;
    var ds := PlanOf(env, queued);
    var after, starts := ClaimChosen(env.db, ds, chosen, now), StartedIds(ds, chosen);
    ClaimsNeverConflict(env, queued, chosen, now);
    forall id ensures id in IdsIn(after, {CLAIMED, WORKING}) <==> id in IdsIn(env.db, {CLAIMED, WORKING}) + starts {
      if id in starts {
        var d :| d in ds && d.reason == Starts && d.c.id in chosen && d.c.id == id;
        assert Claimed(after, d);
      } else if id in env.db.issues {
        ClaimsLeaveTheRest(env.db, ds, chosen, now, id);
      }
    }
  }
}
