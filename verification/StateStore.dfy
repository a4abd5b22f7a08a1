/** The orchestration store: issues, domain locks and the append-only event log, moved together by
    atomic transactions. `Db` is the abstract value; the class updates its tables in place. */
module StateStore {
  import opened Prelude
  import opened Lifecycle

  type Sha = string

  datatype Mode = Exclusive | Shared
  datatype Risk = LOW | MEDIUM | HIGH
  datatype Kind = Root | Child | Rollup
  datatype VerdictKind = APPROVE | REQUEST_CHANGES | BLOCK
  /** `APPROVE@<sha>`; the binding is absent when the stored text carries no `@`. */
  datatype Verdict = Verdict(kind: VerdictKind, sha: Option<Sha>)

  datatype LockReq = LockReq(name: string, mode: Mode)
  datatype LockCell = LockCell(mode: Mode, acquiredAt: real)
  type LockKey = (string, int)
  type LockTable = map<LockKey, LockCell>

  datatype IssueRow = IssueRow(
    state: State, kind: Kind, root: int, parent: Option<int>, risk: Risk, resourceClass: string,
    domains: seq<string>, dependencies: seq<int>, attempt: nat, pr: Option<int>, validated: Option<Sha>,
    verdict: Option<Verdict>, approvals: set<string>, agent: Option<string>, pid: Option<int>,
    startedAt: Option<real>, heartbeatAt: Option<real>, updatedAt: real)

  /** One `column=value` of a transition or update; none of them is the state. */
  datatype Field =
    | Attempt(n: nat) | PrNumber(pr: Option<int>) | Validated(sha: Option<Sha>) | Reviewed(v: Option<Verdict>)
    | Assigned(who: Option<string>) | Pid(pid: Option<int>) | Started(at: Option<real>) | Heartbeat(at: Option<real>)

  datatype Event =
    | Tracked(id: int, state: State)
    | Moved(id: int, to: State, fromAnyOf: seq<State>)
    | LocksAcquired(id: int, reqs: seq<LockReq>)
    | LocksReleased(id: int, count: nat)
    | Noted(what: string)

  datatype Db = Db(issues: map<int, IssueRow>, locks: LockTable, events: seq<Event>)

  datatype TxResult = Done | Untracked | Illegal | Conflict

  datatype TrackArgs = TrackArgs(risk: Risk, resourceClass: string, domains: seq<string>, dependencies: seq<int>,
                                 state: State, root: Option<int>, parent: Option<int>, kind: Option<Kind>)

  const EMPTY := Db(map[], map[], [])

  // ---------------------------------------------------------------------------------------------
  // The transactions, as functions on the abstract value
  // ---------------------------------------------------------------------------------------------

  function SetField(row: IssueRow, f: Field): IssueRow {
    match f
    case Attempt(n) => row.(attempt := n)
    case PrNumber(pr) => row.(pr := pr)
    case Validated(sha) => row.(validated := sha)
    case Reviewed(v) => row.(verdict := v)
    case Assigned(who) => row.(agent := who)
    case Pid(pid) => row.(pid := pid)
    case Started(at) => row.(startedAt := at)
    case Heartbeat(at) => row.(heartbeatAt := at)
  }

  function SetFields(row: IssueRow, fs: seq<Field>): (r: IssueRow)
    ensures r.state == row.state && r.kind == row.kind && r.root == row.root
  {
    if fs == [] then row else SetField(SetFields(row, DropLast(fs)), Last(fs))
  }

  function Nonzero(o: Option<int>): Option<int> {
    if o.Some? && o.value != 0 then o else None
  }

  /** Insert an unknown Issue; refresh the contract-derived columns of a known one, never its state, and its
      ROOT linkage only when the caller passes it. */
  function TrackDb(db: Db, id: int, args: TrackArgs, now: real): Db {
    var keep := id in db.issues && args.kind.None? && args.root.None?;
    var kind := if keep then db.issues[id].kind else if args.kind.Some? then args.kind.value else Root;
    var root := if keep then db.issues[id].root else if Nonzero(args.root).Some? then args.root.value else id;
    var given := if keep then db.issues[id].parent else args.parent;
    var parent := if Nonzero(given).Some? then given else if kind == Child then Some(root) else None;
    if id in db.issues then
      db.(issues := db.issues[id := db.issues[id].(
        risk := args.risk, resourceClass := args.resourceClass, domains := args.domains,
        dependencies := args.dependencies, kind := kind, root := root, parent := parent, updatedAt := now)])
    else
      var row := IssueRow(args.state, kind, root, parent, args.risk, args.resourceClass, args.domains,
                          args.dependencies, 0, None, None, None, {}, None, None, None, None, now);
      db.(issues := db.issues[id := row], events := db.events + [Tracked(id, args.state)])
  }

  predicate IsLeast(least: int, ids: set<int>) {
    least in ids && forall x :: x in ids ==> least <= x
  }

  lemma {:induction false} LeastExists(ids: set<int>)
    requires ids != {}
    ensures exists least :: IsLeast(least, ids)
  {
    if forall x :: x !in ids { assert false; }
    var x :| x in ids;
    var others := ids - {x};
    assert ids == others + {x};
    if others == {} {
      assert IsLeast(x, ids);
    } else {
      LeastExists(others);
      var least :| IsLeast(least, others);
      assert IsLeast(if x < least then x else least, ids);
    }
  }

  /** Numbers in ascending order. */
  function Upwards(ids: set<int>): (r: seq<int>)
    ensures forall i :: 0 <= i < |r| ==> r[i] in ids
  {
    if ids == {} then []
    else
      LeastExists(ids);
      var least :| IsLeast(least, ids);
      [least] + Upwards(ids - {least})
  }

  function IdsIn(db: Db, states: set<State>): set<int> {
    set id | id in db.issues && db.issues[id].state in states
  }

  function RowsOf(db: Db, ids: seq<int>): seq<IssueRow>
    requires forall i :: 0 <= i < |ids| ==> ids[i] in db.issues
  {
    seq(|ids|, i requires 0 <= i < |ids| => db.issues[ids[i]])
  }

  /** The rows in the given states, by Issue number. */
  function ListDb(db: Db, states: set<State>): seq<IssueRow> {
    RowsOf(db, Upwards(IdsIn(db, states)))
  }

  /** Compare-and-set: every named source must be legal, and the row on disk must be in one of them. */
  function TransitionDb(db: Db, id: int, to: State, allowedFrom: Option<seq<State>>, fields: seq<Field>,
      now: real): (Db, TxResult) {
    if id !in db.issues then (db, Untracked)
    else
      var here := db.issues[id].state;
      var from := if allowedFrom.Some? then allowedFrom.value else [here];
      if exists s :: s in from && !Allowed(s, to) then (db, Illegal)
      else if here !in from then (db, Conflict)
      else
        var row := SetFields(db.issues[id].(state := to, updatedAt := now), fields);
        (db.(issues := db.issues[id := row], events := db.events + [Moved(id, to, from)]), Done)
  }

  function UpdateDb(db: Db, id: int, fields: seq<Field>, now: real): Db {
    if id !in db.issues then db
    else db.(issues := db.issues[id := SetFields(db.issues[id].(updatedAt := now), fields)])
  }

  predicate Clashes(key: LockKey, cell: LockCell, req: LockReq, id: int) {
    key.0 == req.name && key.1 != id && (req.mode == Exclusive || cell.mode == Exclusive)
  }

  /** The rows of other Issues that stop `id` from taking `req`. */
  function LockConflicts(locks: LockTable, req: LockReq, id: int): set<LockKey> {
    set k | k in locks && Clashes(k, locks[k], req, id)
  }

  function AllConflicts(locks: LockTable, reqs: seq<LockReq>, id: int): set<LockKey> {
    if reqs == [] then {} else AllConflicts(locks, DropLast(reqs), id) + LockConflicts(locks, Last(reqs), id)
  }

  /** The same, requirement by requirement in their order, with repetitions; the rows one requirement meets come in no
      particular order. */
  function ConflictList(locks: LockTable, reqs: seq<LockReq>, id: int): (r: seq<set<LockKey>>)
    ensures r == [] <==> AllConflicts(locks, reqs, id) == {}
    ensures forall k :: k in AllConflicts(locks, reqs, id) <==> exists rows :: rows in r && k in rows
  {
    if reqs == [] then []
    else
      var before, rows := ConflictList(locks, DropLast(reqs), id), LockConflicts(locks, Last(reqs), id);
      if rows == {} then before else before + [rows]
  }

  function Granted(locks: LockTable, reqs: seq<LockReq>, id: int, now: real): LockTable {
    if reqs == [] then locks
    else Granted(locks, DropLast(reqs), id, now)[(Last(reqs).name, id) := LockCell(Last(reqs).mode, now)]
  }

  function AcquireDb(db: Db, id: int, reqs: seq<LockReq>, now: real): (Db, set<LockKey>) {
    var conflicts := AllConflicts(db.locks, reqs, id);
    if conflicts != {} then (db, conflicts)
    else
      var issues := if id in db.issues then db.issues[id := db.issues[id].(updatedAt := now)] else db.issues;
      (Db(issues, Granted(db.locks, reqs, id, now), db.events + [LocksAcquired(id, reqs)]), {})
  }

  function HeldBy(locks: LockTable, id: int): set<LockKey> {
    set k | k in locks && k.1 == id
  }

  function ReleaseDb(db: Db, id: int): Db {
    var mine := HeldBy(db.locks, id);
    if mine == {} then db
    else db.(locks := db.locks - mine, events := db.events + [LocksReleased(id, |mine|)])
  }

  // ---------------------------------------------------------------------------------------------
  // The class: the same transactions, updating the tables in place
  // ---------------------------------------------------------------------------------------------

  class Store {
    var issues: map<int, IssueRow>
    var locks: LockTable
    var events: seq<Event>

    function Contents(): Db
      reads this
    {
      Db(issues, locks, events)
    }

    constructor ()
      ensures Contents() == EMPTY
    {
      issues, locks, events := map[], map[], [];
    }

    method Track(id: int, args: TrackArgs, now: real)
      modifies this
      ensures Contents() == TrackDb(old(Contents()), id, args, now)
    {
      var root, parent, kind := args.root, args.parent, args.kind;
      var existing := id in issues;
      if existing && kind.None? && root.None? {
        root, parent, kind := Some(issues[id].root), issues[id].parent, Some(issues[id].kind);
      } else {
        if kind.None? { kind := Some(Root); }
        if Nonzero(root).None? { root := Some(id); }
      }
      if Nonzero(parent).None? {
        parent := if kind.value == Child then Some(root.value) else None;
      }
      if existing {
        issues := issues[id := issues[id].(
          risk := args.risk, resourceClass := args.resourceClass, domains := args.domains,
          dependencies := args.dependencies, kind := kind.value, root := root.value, parent := parent,
          updatedAt := now)];
      } else {
        issues := issues[id :=
            IssueRow(args.state, kind.value, root.value, parent, args.risk, args.resourceClass, args.domains,
                                        args.dependencies, 0, None, None, None, {}, None, None, None, None, now)];
        events := events + [Tracked(id, args.state)];
      }
    }

    method Transition(id: int, to: State, allowedFrom: Option<seq<State>>, fields: seq<Field>, now: real)
        returns (res: TxResult)
      modifies this
      ensures (Contents(), res) == TransitionDb(old(Contents()), id, to, allowedFrom, fields, now)
    {
      if id !in issues { return Untracked; }
      var from := [issues[id].state];
      if allowedFrom.Some? { from := allowedFrom.value; }
      for i := 0 to |from|
        invariant forall j :: 0 <= j < i ==> Allowed(from[j], to)
      {
        if !Allowed(from[i], to) { return Illegal; }
      }
      if issues[id].state !in from { return Conflict; }
      var row := issues[id].(state := to, updatedAt := now);
      for i := 0 to |fields|
        invariant row == SetFields(issues[id].(state := to, updatedAt := now), fields[..i])
      {
        assert DropLast(fields[..i + 1]) == fields[..i];
        row := SetField(row, fields[i]);
      }
      assert fields[..|fields|] == fields;
      issues := issues[id := row];
      events := events + [Moved(id, to, from)];
      return Done;
    }

    method Update(id: int, fields: seq<Field>, now: real)
      modifies this`issues
      ensures Contents() == UpdateDb(old(Contents()), id, fields, now)
    {
      if id in issues {
        issues := issues[id := SetFields(issues[id].(updatedAt := now), fields)];
      }
    }

    /** All or nothing: the empty list means every requirement was granted. Otherwise it has the rows each requirement
        meets, requirement by requirement; one requirement meets no row twice. */
    method TryAcquireLocks(id: int, reqs: seq<LockReq>, now: real) returns (conflicts: seq<set<LockKey>>)
      modifies this
      ensures conflicts == ConflictList(old(locks), reqs, id)
      ensures Contents() == AcquireDb(old(Contents()), id, reqs, now).0
    {
      conflicts := [];
      for i := 0 to |reqs|
        invariant conflicts == ConflictList(locks, reqs[..i], id)
      {
        assert DropLast(reqs[..i + 1]) == reqs[..i];
        var rows := LockConflicts(locks, reqs[i], id);
        if rows != {} { conflicts := conflicts + [rows]; }
      }
      assert reqs[..|reqs|] == reqs;
      if conflicts != [] { return; }
      ghost var before := locks;
      for i := 0 to |reqs|
        invariant locks == Granted(before, reqs[..i], id, now)
        invariant issues == old(issues) && events == old(events)
      {
        assert DropLast(reqs[..i + 1]) == reqs[..i];
        locks := locks[(reqs[i].name, id) := LockCell(reqs[i].mode, now)];
      }
      if id in issues { issues := issues[id := issues[id].(updatedAt := now)]; }
      events := events + [LocksAcquired(id, reqs)];
    }

    method ReleaseLocks(id: int) returns (count: nat)
      modifies this
      ensures Contents() == ReleaseDb(old(Contents()), id)
      ensures count == |HeldBy(old(locks), id)|
    {
      var mine := HeldBy(locks, id);
      count := |mine|;
      if count > 0 {
        locks := locks - mine;
        events := events + [LocksReleased(id, count)];
      }
    }

    method RecordEvent(what: string)
      modifies this`events
      ensures Contents() == ApplyOp(old(Contents()), OpNote(what))
    {
      events := events + [Noted(what)];
    }
  }

  // ---------------------------------------------------------------------------------------------
  // Runs: any interleaving of any callers' transactions
  // ---------------------------------------------------------------------------------------------

  datatype Op =
    | OpTrack(id: int, args: TrackArgs, now: real)
    | OpTransition(id: int, to: State, allowedFrom: Option<seq<State>>, fields: seq<Field>, now: real)
    | OpUpdate(id: int, fields: seq<Field>, now: real)
    | OpAcquire(id: int, reqs: seq<LockReq>, now: real)
    | OpRelease(id: int)
    | OpNote(what: string)

  function ApplyOp(db: Db, op: Op): Db {
    match op
    case OpTrack(id, args, now) => TrackDb(db, id, args, now)
    case OpTransition(id, to, allowedFrom, fields, now) => TransitionDb(db, id, to, allowedFrom, fields, now).0
    case OpUpdate(id, fields, now) => UpdateDb(db, id, fields, now)
    case OpAcquire(id, reqs, now) => AcquireDb(db, id, reqs, now).0
    case OpRelease(id) => ReleaseDb(db, id)
    case OpNote(what) => db.(events := db.events + [Noted(what)])
  }

  function Run(ops: seq<Op>): Db {
    if ops == [] then EMPTY else ApplyOp(Run(DropLast(ops)), Last(ops))
  }

  /** What the log claims: each Issue's state, and who holds which lock in which mode. */
  datatype View = View(states: map<int, State>, held: map<LockKey, Mode>)

  function ViewOf(db: Db): View {
    View(map id | id in db.issues :: db.issues[id].state, map k | k in db.locks :: db.locks[k].mode)
  }

  function HoldAll(held: map<LockKey, Mode>, reqs: seq<LockReq>, id: int): map<LockKey, Mode> {
    if reqs == [] then held else HoldAll(held, DropLast(reqs), id)[(Last(reqs).name, id) := Last(reqs).mode]
  }

  /** Replay one event; `None` when the log would be telling of a step the lifecycle forbids, a second
      tracking of a known Issue, a grant over somebody else's lock or a release of the wrong size. */
  function ReplayEvent(v: View, e: Event): Option<View> {
    match e
    case Tracked(id, state) => if id in v.states then None else Some(v.(states := v.states[id := state]))
    case Moved(id, to, from) =>
      if id in v.states && v.states[id] in from && Allowed(v.states[id], to)
      then Some(v.(states := v.states[id := to])) else None
    case LocksAcquired(id, reqs) =>
      if forall r, k | r in reqs && k in v.held && k.0 == r.name && k.1 != id :: r.mode == Shared && v.held[k] == Shared
      then Some(v.(held := HoldAll(v.held, reqs, id))) else None
    case LocksReleased(id, count) =>
      var mine := set k | k in v.held && k.1 == id;
      if |mine| == count then Some(v.(held := v.held - mine)) else None
    case Noted(_) => Some(v)
  }

  function Replay(events: seq<Event>): Option<View> {
    if events == [] then Some(View(map[], map[]))
    else
      var v := Replay(DropLast(events));
      if v.None? then None else ReplayEvent(v.value, Last(events))
  }

  lemma ReplaySnoc(events: seq<Event>, e: Event)
    requires Replay(events).Some?
    ensures Replay(events + [e]) == ReplayEvent(Replay(events).value, e)
  {
    assert DropLast(events + [e]) == events;
  }

  lemma {:induction false} ConflictsAre(locks: LockTable, reqs: seq<LockReq>, id: int)
    ensures forall k :: k in AllConflicts(locks, reqs, id) <==>
                        k in locks && exists r :: r in reqs && Clashes(k, locks[k], r, id)
  {
    if reqs != [] {
      ConflictsAre(locks, DropLast(reqs), id);
      assert reqs == DropLast(reqs) + [Last(reqs)];
    }
  }

  lemma {:induction false} GrantedViews(locks: LockTable, reqs: seq<LockReq>, id: int, now: real)
    ensures (map k | k in Granted(locks, reqs, id, now) :: Granted(locks, reqs, id, now)[k].mode)
            == HoldAll(map k | k in locks :: locks[k].mode, reqs, id)
  {
    if reqs != [] { GrantedViews(locks, DropLast(reqs), id, now); }
  }

  lemma AcquireReplays(db: Db, id: int, reqs: seq<LockReq>, now: real)
    requires Replay(db.events) == Some(ViewOf(db))
    ensures var db' := AcquireDb(db, id, reqs, now).0; Replay(db'.events) == Some(ViewOf(db'))
  {
    hide Replay, Granted, AllConflicts, HoldAll;
    var (db', conflicts) := AcquireDb(db, id, reqs, now);
    if conflicts == {} {
      var v := ViewOf(db);
      ReplaySnoc(db.events, LocksAcquired(id, reqs));
      ConflictsAre(db.locks, reqs, id);
      forall r, k | r in reqs && k in v.held && k.0 == r.name && k.1 != id
        ensures r.mode == Shared && v.held[k] == Shared
      {
        assert !Clashes(k, db.locks[k], r, id);
      }
      GrantedViews(db.locks, reqs, id, now);
      assert ViewOf(db').states == v.states;
    }
  }

  lemma ReleaseReplays(db: Db, id: int)
    requires Replay(db.events) == Some(ViewOf(db))
    ensures Replay(ReleaseDb(db, id).events) == Some(ViewOf(ReleaseDb(db, id)))
  {
    hide Replay;
    var v, mine := ViewOf(db), HeldBy(db.locks, id);
    if mine != {} {
      ReplaySnoc(db.events, LocksReleased(id, |mine|));
      assert (set k | k in v.held && k.1 == id) == mine;
      assert ViewOf(ReleaseDb(db, id)).held == v.held - mine;
      assert ViewOf(ReleaseDb(db, id)).states == v.states;
    }
  }

  lemma TransitionReplays(db: Db, id: int, to: State, from: Option<seq<State>>, fields: seq<Field>, now: real)
    requires Replay(db.events) == Some(ViewOf(db))
    ensures var db' := TransitionDb(db, id, to, from, fields, now).0; Replay(db'.events) == Some(ViewOf(db'))
  {
    hide Replay, SetFields, Targets;
    var (db', res) := TransitionDb(db, id, to, from, fields, now);
    if res == Done {
      var v := ViewOf(db);
      ReplaySnoc(db.events, Last(db'.events));
      assert ViewOf(db').states == v.states[id := to];
      assert ViewOf(db').held == v.held;
    }
  }

  lemma TrackReplays(db: Db, id: int, args: TrackArgs, now: real)
    requires Replay(db.events) == Some(ViewOf(db))
    ensures var db' := TrackDb(db, id, args, now); Replay(db'.events) == Some(ViewOf(db'))
  {
    hide Replay, SetFields;
    var db', v := TrackDb(db, id, args, now), ViewOf(db);
    if id in db.issues {
      assert ViewOf(db') == v;
    } else {
      ReplaySnoc(db.events, Tracked(id, args.state));
      assert ViewOf(db').states == v.states[id := args.state];
      assert ViewOf(db').held == v.held;
    }
  }

  lemma StepReplays(db: Db, op: Op)
    requires Replay(db.events) == Some(ViewOf(db))
    ensures Replay(ApplyOp(db, op).events) == Some(ViewOf(ApplyOp(db, op)))
  {
    hide Replay, TransitionDb, TrackDb, AcquireDb, ReleaseDb;
    match op
    case OpAcquire(id, reqs, now) => AcquireReplays(db, id, reqs, now);
    case OpRelease(id) => ReleaseReplays(db, id);
    case OpTransition(id, to, from, fields, now) => TransitionReplays(db, id, to, from, fields, now);
    case OpTrack(id, args, now) => TrackReplays(db, id, args, now);
    case OpUpdate(_, _, _) => assert ViewOf(ApplyOp(db, op)) == ViewOf(db);
    case OpNote(what) =>
      ReplaySnoc(db.events, Noted(what));
      assert ViewOf(ApplyOp(db, op)) == ViewOf(db);
  }

  /** Event sourcing: after any run the log alone rebuilds every Issue's state and the whole lock table, and
      every step it tells of is legal. */
  lemma {:induction false} LogReplaysToLiveState(ops: seq<Op>)
    ensures Replay(Run(ops).events) == Some(ViewOf(Run(ops)))
  {
    if ops == [] {
      assert ViewOf(EMPTY) == View(map[], map[]);
    } else {
      LogReplaysToLiveState(DropLast(ops));
      StepReplays(Run(DropLast(ops)), Last(ops));
    }
  }

  /** Two different Issues share a lock name only when both hold it shared. */
  ghost predicate LockSafe(locks: LockTable) {
    forall k, l :: k in locks && l in locks && k.0 == l.0 && k.1 != l.1 ==>
        locks[k].mode == Shared && locks[l].mode == Shared
  }

  lemma {:induction false} GrantedCells(locks: LockTable, reqs: seq<LockReq>, id: int, now: real)
    ensures var g := Granted(locks, reqs, id, now);
            && (forall k :: k in g && (k !in locks || g[k] != locks[k]) ==>
                  k.1 == id && LockReq(k.0, g[k].mode) in reqs && g[k].acquiredAt == now)
            && (forall k :: k in locks ==> k in g)
            && (forall r :: r in reqs ==> (r.name, id) in g && LockReq(r.name, g[(r.name, id)].mode) in reqs)
  {
    if reqs != [] {
      GrantedCells(locks, DropLast(reqs), id, now);
      assert reqs == DropLast(reqs) + [Last(reqs)];
    }
  }

  lemma AcquireKeepsLockSafe(db: Db, id: int, reqs: seq<LockReq>, now: real)
    requires LockSafe(db.locks)
    ensures LockSafe(AcquireDb(db, id, reqs, now).0.locks)
  {
    ConflictsAre(db.locks, reqs, id);
    GrantedCells(db.locks, reqs, id, now);
    var (db', conflicts) := AcquireDb(db, id, reqs, now);
    if conflicts == {} {
      forall k, l | k in db'.locks && l in db'.locks && k.0 == l.0 && k.1 != l.1
        ensures db'.locks[k].mode == Shared && db'.locks[l].mode == Shared
      {
        // at most one of the two keys belongs to `id`, so at most one of the two cells is new
        var mine, other := if k.1 == id then k else l, if k.1 == id then l else k;
        if mine.1 == id && (mine !in db.locks || db'.locks[mine] != db.locks[mine]) {
          assert !Clashes(other, db.locks[other], LockReq(mine.0, db'.locks[mine].mode), id);
        }
      }
    }
  }

  /** Lock safety over every run, whoever acquires, re-acquires, upgrades, releases or crashes in between. */
  lemma {:induction false} LocksStaySafe(ops: seq<Op>)
    ensures LockSafe(Run(ops).locks)
  {
    if ops != [] {
      LocksStaySafe(DropLast(ops));
      var db, op := Run(DropLast(ops)), Last(ops);
      if op.OpAcquire? { AcquireKeepsLockSafe(db, op.id, op.reqs, op.now); }
    }
  }

  /** Acquisition is all or nothing, also when it re-acquires or upgrades: it is granted exactly when no other
      Issue's row clashes with any requirement; granted, every requirement is held and no other row moved;
      refused, nothing moved at all. */
  lemma AcquireAllOrNothing(db: Db, id: int, reqs: seq<LockReq>, now: real)
    ensures var (db', conflicts) := AcquireDb(db, id, reqs, now);
            && (conflicts == {} <==> forall k, r :: k in db.locks && r in reqs ==> !Clashes(k, db.locks[k], r, id))
            && (conflicts != {} ==> db' == db)
            && (conflicts == {} ==>
                  && (forall r :: r in reqs ==> (r.name, id) in db'.locks)
                  && (forall k :: k in db.locks && k.1 != id ==> k in db'.locks && db'.locks[k] == db.locks[k])
                  && (forall k :: k in db'.locks && k !in db.locks ==>
                        k.1 == id && LockReq(k.0, db'.locks[k].mode) in reqs))
  {
    ConflictsAre(db.locks, reqs, id);
    GrantedCells(db.locks, reqs, id, now);
  }

  predicate Expected(here: State, to: State, from: Option<seq<State>>) {
    match from
    case None => Allowed(here, to)
    case Some(states) => here in states && forall s :: s in states ==> Allowed(s, to)
  }

  /** A compare-and-set succeeds exactly when the Issue is tracked, its state is among those expected and every expected
      state may legally move there. Refused, it changes nothing; successful, it moves exactly one Issue, along a legal
      edge. */
  lemma TransitionIsCompareAndSet(db: Db, id: int, to: State, from: Option<seq<State>>, fields: seq<Field>, now: real)
    ensures var (db', res) := TransitionDb(db, id, to, from, fields, now);
            && (res == Done <==> id in db.issues && Expected(db.issues[id].state, to, from))
            && (res != Done ==> db' == db)
            && (res == Done ==>
                  && id in db.issues && Allowed(db.issues[id].state, to) && db'.issues[id].state == to
                  && (from.Some? ==> db.issues[id].state in from.value)
                  && db'.issues.Keys == db.issues.Keys && db'.locks == db.locks
                  && (forall other :: other in db.issues && other != id ==> db'.issues[other] == db.issues[other]))
  {
  }

  /** A contract refresh without linkage arguments keeps the ROOT, the kind and the state of a known Issue. */
  lemma RefreshKeepsLinkage(db: Db, id: int, args: TrackArgs, now: real)
    requires id in db.issues && args.kind.None? && args.root.None?
    ensures var row := TrackDb(db, id, args, now).issues[id];
            && row.state == db.issues[id].state && row.attempt == db.issues[id].attempt
            && row.kind == db.issues[id].kind && row.root == db.issues[id].root
            && (db.issues[id].kind == Child ==> row.parent.Some?)
    ensures TrackDb(db, id, args, now).events == db.events
  {
  }
}
