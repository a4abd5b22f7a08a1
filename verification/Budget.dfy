/** Regression budgets: how a corpus report is judged against them, and when a child Issue only narrows its ROOT. */
module Budget {
  import opened Prelude
  import opened StateStore

  datatype Limit = AnyNumber | Forbidden | AtMost(n: nat) | Tagged(field: string, op: string, value: string)
  datatype Rule = Rule(key: string, limit: Limit)

  const BUDGET_KEYS: seq<string> :=
      ["LOST", "GAINED", "crashes", "status_changes", "refusal_code_changes", "primary_signature_changes"]
  const CHECKED_KEYS: seq<string> :=
      ["LOST", "crashes", "status_changes", "refusal_code_changes", "primary_signature_changes"]

  /** A context field as JSON carries it; a number knows how it prints. */
  datatype FieldValue = Flag(b: bool) | Number(r: real, text: string) | Text(s: string)
  type Context = map<string, FieldValue>

  /** The corpus report: the changed contexts under each budget key, and the size of the after-snapshot. */
  datatype Report = Report(changes: map<string, seq<Context>>, afterTotal: int)

  // --- evaluation --------------------------------------------------------------------------------

  predicate TextBefore(a: string, b: string) {
    if a == [] then b != []
    else b != [] && (a[0] < b[0] || (a[0] == b[0] && TextBefore(a[1..], b[1..])))
  }

  predicate Compare(op: string, less: bool, equal: bool) {
    match op
    case "==" => equal
    case "!=" => !equal
    case "<" => less
    case "<=" => less || equal
    case ">" => !less && !equal
    case ">=" => !less
    case _ => false
  }

  function Truthy(raw: string): bool {
    Lower(raw) in {"true", "1", "yes"}
  }

  predicate FlagMatches(b: bool, op: string, value: bool) {
    Compare(op, !b && value, b == value)
  }

  predicate NumberMatches(r: real, op: string, value: real) {
    Compare(op, r < value, r == value)
  }

  predicate TextMatches(s: string, op: string, value: string) {
    Compare(op, TextBefore(s, value), s == value)
  }

  /** Whether a changed context satisfies a tagged predicate; `numeric` reads a decimal number. */
  predicate ContextMatches(c: Context, field: string, op: string, value: string, numeric: string -> Option<real>) {
    field in c &&
    match c[field]
    case Flag(b) => FlagMatches(b, op, Truthy(value))
    case Number(r, text) =>
      if numeric(value).Some? then NumberMatches(r, op, numeric(value).value) else TextMatches(text, op, value)
    case Text(s) => TextMatches(s, op, value)
  }

  /** The changed contexts a limit does not cover. */
  function Outside(rows: seq<Context>, limit: Limit, numeric: string -> Option<real>): nat {
    match limit
    case AnyNumber => 0
    case Forbidden => |rows|
    case AtMost(n) => if |rows| > n then |rows| else 0
    case Tagged(field, op, value) =>
      if rows == [] then 0
      else
        Outside(DropLast(rows), limit, numeric)
        + if ContextMatches(Last(rows), field, op, value, numeric) then 0 else 1
  }

  predicate Within(rows: seq<Context>, limit: Limit, numeric: string -> Option<real>) {
    Outside(rows, limit, numeric) == 0
  }

  function Rows(report: Report, key: string): seq<Context> {
    if key in report.changes then report.changes[key] else []
  }

  /** The rule evaluation uses: the last one given for the key, else strict for everything but GAINED. */
  function EffectiveLimit(rules: seq<Rule>, key: string): Limit {
    if rules == [] then if key == "GAINED" then AnyNumber else AtMost(0)
    else if Last(rules).key == key then Last(rules).limit
    else EffectiveLimit(DropLast(rules), key)
  }

  datatype Violation = Violation(key: string, observed: nat)

  function ViolationOf(report: Report, rules: seq<Rule>, key: string, numeric: string -> Option<real>): seq<Violation> {
    var outside := Outside(Rows(report, key), EffectiveLimit(rules, key), numeric);
    if outside == 0 then [] else [Violation(key, outside)]
  }

  function Violations(report: Report, rules: seq<Rule>, keys: seq<string>,
      numeric: string -> Option<real>): seq<Violation> {
    if keys == [] then []
    else Violations(report, rules, DropLast(keys), numeric) + ViolationOf(report, rules, Last(keys), numeric)
  }

  predicate WithinBudget(report: Report, rules: seq<Rule>, numeric: string -> Option<real>) {
    report.afterTotal != 0 && forall key :: key in BUDGET_KEYS ==>
        Within(Rows(report, key), EffectiveLimit(rules, key), numeric)
  }

  lemma {:induction false} NoViolationsMeansWithin(report: Report, rules: seq<Rule>, keys: seq<string>,
      numeric: string -> Option<real>)
    ensures Violations(report, rules, keys, numeric) == [] <==>
            forall key :: key in keys ==> Within(Rows(report, key), EffectiveLimit(rules, key), numeric)
  {
    if keys != [] {
      NoViolationsMeansWithin(report, rules, DropLast(keys), numeric);
      assert keys == DropLast(keys) + [Last(keys)];
    }
  }

  method Evaluate(report: Report, rules: seq<Rule>, numeric: string -> Option<real>)
      returns (ok: bool, violations: seq<Violation>)
    ensures ok <==> WithinBudget(report, rules, numeric)
    ensures violations ==
        Violations(report, rules, BUDGET_KEYS, numeric)
        + if report.afterTotal == 0 then [Violation("corpus", 0)] else []
  {
    ok, violations := true, [];
    for i := 0 to |BUDGET_KEYS|
      invariant violations == Violations(report, rules, BUDGET_KEYS[..i], numeric)
      invariant ok <==> violations == []
    {
      assert DropLast(BUDGET_KEYS[..i + 1]) == BUDGET_KEYS[..i];
      var limit := EffectiveLimit(rules, BUDGET_KEYS[i]);
      if limit == AnyNumber { continue; }
      var outside := Outside(Rows(report, BUDGET_KEYS[i]), limit, numeric);
      if outside > 0 {
        ok := false;
        violations := violations + [Violation(BUDGET_KEYS[i], outside)];
      }
    }
    assert BUDGET_KEYS[..|BUDGET_KEYS|] == BUDGET_KEYS;
    NoViolationsMeansWithin(report, rules, BUDGET_KEYS, numeric);
    if report.afterTotal == 0 {
      ok := false;
      violations := violations + [Violation("corpus", 0)];
    }
  }

  // --- narrowing ---------------------------------------------------------------------------------

  predicate Wider(child: Limit, root: Limit) {
    if root == AnyNumber then false
    else if child == AnyNumber then true
    else match root
      case Forbidden => child != Forbidden
      case AtMost(n) => if child == Forbidden then false else if child.AtMost? then child.n > n else true
      case _ => !child.Tagged? && child != Forbidden
  }

  /** The parts of a contract that bound its children; `locks` are the effective ones. */
  datatype Scope = Scope(number: int, domains: seq<string>, locks: seq<LockReq>, budget: seq<Rule>, inherited: bool,
      rootIssue: Option<int>)

  function DefaultLimit(key: string): Limit {
    if key == "GAINED" then AnyNumber else if key == "primary_signature_changes" then Forbidden else AtMost(0)
  }

  /** The rule a contract states for a key: the first, else the default. */
  function StatedLimit(rules: seq<Rule>, key: string): Limit {
    if rules == [] then DefaultLimit(key) else if rules[0].key == key then rules[0].limit
    else StatedLimit(rules[1..], key)
  }

  function RootMode(locks: seq<LockReq>, name: string): Option<Mode> {
    if locks == [] then None else if Last(locks).name == name then Some(Last(locks).mode)
    else RootMode(DropLast(locks), name)
  }

  predicate LockCovered(l: LockReq, locks: seq<LockReq>) {
    var mode := RootMode(locks, l.name);
    mode.Some? && (l.mode == Exclusive ==> mode.value == Exclusive)
  }

  ghost predicate Narrows(child: Scope, root: Scope) {
    && (forall d :: d in child.domains ==> d in root.domains)
    && (forall l :: l in child.locks ==> LockCovered(l, root.locks))
    && (forall key :: key in CHECKED_KEYS ==> !Wider(StatedLimit(child.budget, key), StatedLimit(root.budget, key)))
    && child.inherited && child.rootIssue == Some(root.number)
  }

  datatype Problem = ExtraDomain(d: string) | LockNotDeclared(l: LockReq) | BudgetWider(key: string) | NotInherited

  method ChildScopeProblems(child: Scope, root: Scope) returns (problems: seq<Problem>)
    ensures problems == [] <==> Narrows(child, root)
    ensures forall d :: ExtraDomain(d) in problems <==> d in child.domains && d !in root.domains
    ensures forall l :: LockNotDeclared(l) in problems <==> l in child.locks && !LockCovered(l, root.locks)
    ensures forall key :: BudgetWider(key) in problems <==>
                key in CHECKED_KEYS && Wider(StatedLimit(child.budget, key), StatedLimit(root.budget, key))
  {
    problems := [];
    for i := 0 to |child.domains|
      invariant forall p :: p in problems ==> p.ExtraDomain?
      invariant forall d :: ExtraDomain(d) in problems <==> d in child.domains[..i] && d !in root.domains
    {
      assert child.domains[..i + 1] == child.domains[..i] + [child.domains[i]];
      if child.domains[i] !in root.domains { problems := problems + [ExtraDomain(child.domains[i])]; }
    }
    assert child.domains[..|child.domains|] == child.domains;
    for i := 0 to |child.locks|
      invariant forall p :: p in problems ==> p.ExtraDomain? || p.LockNotDeclared?
      invariant forall d :: ExtraDomain(d) in problems <==> d in child.domains && d !in root.domains
      invariant forall l :: LockNotDeclared(l) in problems <==> l in child.locks[..i] && !LockCovered(l, root.locks)
    {
      assert child.locks[..i + 1] == child.locks[..i] + [child.locks[i]];
      if !LockCovered(child.locks[i], root.locks) { problems := problems + [LockNotDeclared(child.locks[i])]; }
    }
    assert child.locks[..|child.locks|] == child.locks;
    for i := 0 to |CHECKED_KEYS|
      invariant NotInherited !in problems
      invariant forall d :: ExtraDomain(d) in problems <==> d in child.domains && d !in root.domains
      invariant forall l :: LockNotDeclared(l) in problems <==> l in child.locks && !LockCovered(l, root.locks)
      invariant forall key :: BudgetWider(key) in problems <==>
                    key in CHECKED_KEYS[..i] && Wider(StatedLimit(child.budget, key), StatedLimit(root.budget, key))
    {
      assert CHECKED_KEYS[..i + 1] == CHECKED_KEYS[..i] + [CHECKED_KEYS[i]];
      if Wider(StatedLimit(child.budget, CHECKED_KEYS[i]), StatedLimit(root.budget, CHECKED_KEYS[i])) {
        problems := problems + [BudgetWider(CHECKED_KEYS[i])];
      }
    }
    assert CHECKED_KEYS[..|CHECKED_KEYS|] == CHECKED_KEYS;
    if !child.inherited || child.rootIssue != Some(root.number) { problems := problems + [NotInherited]; }
    forall d | d in child.domains && d !in root.domains ensures problems != [] { assert ExtraDomain(d) in problems; }
    forall l | l in child.locks && !LockCovered(l, root.locks)
      ensures problems != []
    {
      assert LockNotDeclared(l) in problems;
    }
    forall key | key in CHECKED_KEYS && Wider(StatedLimit(child.budget, key), StatedLimit(root.budget, key))
      ensures problems != []
    {
      assert BudgetWider(key) in problems;
    }
    if problems != [] {
      var p := problems[0];
      assert p in problems;
      match p
      case ExtraDomain(d) => assert !Narrows(child, root);
      case LockNotDeclared(l) => assert !Narrows(child, root);
      case BudgetWider(key) => assert !Narrows(child, root);
      case NotInherited =>
    }
  }

  // --- what narrowing promises -------------------------------------------------------------------

  /** "Not wider" is a preorder, so a chain of decompositions never widens. */
  lemma NotWiderIsPreorder(a: Limit, b: Limit, c: Limit)
    ensures !Wider(a, a)
    ensures !Wider(a, b) && !Wider(b, c) ==> !Wider(a, c)
  {
  }

  lemma {:induction false} EmptyIsWithin(rows: seq<Context>, limit: Limit, numeric: string -> Option<real>)
    requires rows == []
    ensures Within(rows, limit, numeric)
  {
  }

  /** Between untagged limits the comparison decides semantic inclusion exactly: it refuses a child that every
      report could show to be within the ROOT's only when the child writes 0 where the ROOT writes `none`. */
  lemma NotWiderIsInclusion(child: Limit, root: Limit, numeric: string -> Option<real>)
    requires !child.Tagged? && !root.Tagged?
    ensures (forall rows :: Within(rows, child, numeric) ==> Within(rows, root, numeric))
            <==> !Wider(child, root) || (child == AtMost(0) && root == Forbidden)
  {
    var size := if child.AtMost? then child.n else if root.AtMost? then root.n + 1 else 1;
    var witness_: seq<Context> := seq(size, _ => map[]);
    assert |witness_| == size;
    if Wider(child, root) && !(child == AtMost(0) && root == Forbidden) {
      assert Within(witness_, child, numeric) && !Within(witness_, root, numeric);
    }
  }

  lemma NothingIsTagged(rows: seq<Context>, limit: Limit, numeric: string -> Option<real>)
    requires limit.Tagged? && rows == [map[]]
    ensures !Within(rows, limit, numeric)
  {
    assert DropLast(rows) == [];
  }

  /** Under a tagged ROOT rule, too, the comparison decides inclusion exactly, but for a child's 0. */
  lemma NotWiderUnderTagged(child: Limit, root: Limit, numeric: string -> Option<real>)
    requires root.Tagged? && !child.Tagged?
    ensures (forall rows :: Within(rows, child, numeric) ==> Within(rows, root, numeric))
            <==> !Wider(child, root) || child == AtMost(0)
  {
    if !Wider(child, root) || child == AtMost(0) {
      forall rows | Within(rows, child, numeric)
        ensures Within(rows, root, numeric)
      {
        EmptyIsWithin(rows, root, numeric);
      }
    } else {
      var one: seq<Context> := [map[]];
      NothingIsTagged(one, root, numeric);
      assert Within(one, child, numeric) && !Within(one, root, numeric);
    }
  }

  /** A budget as the contract parser builds it: every key exactly once. */
  ghost predicate OneRulePerKey(rules: seq<Rule>) {
    forall i, j :: 0 <= i < j < |rules| ==> rules[i].key != rules[j].key
  }

  lemma {:induction false} StatedIsEffective(rules: seq<Rule>, key: string, i: nat)
    requires OneRulePerKey(rules) && i < |rules| && rules[i].key == key
    ensures StatedLimit(rules, key) == rules[i].limit == EffectiveLimit(rules, key)
  {
    StatedIs(rules, key, i);
    EffectiveIs(rules, key, i);
  }

  lemma {:induction false} StatedIs(rules: seq<Rule>, key: string, i: nat)
    requires OneRulePerKey(rules) && i < |rules| && rules[i].key == key
    ensures StatedLimit(rules, key) == rules[i].limit
  {
    if i > 0 { StatedIs(rules[1..], key, i - 1); }
  }

  lemma {:induction false} EffectiveIs(rules: seq<Rule>, key: string, i: nat)
    requires OneRulePerKey(rules) && i < |rules| && rules[i].key == key
    ensures EffectiveLimit(rules, key) == rules[i].limit
  {
    if i < |rules| - 1 { EffectiveIs(DropLast(rules), key, i); }
  }

  /** Narrowing is sound: when no scope problem is found, a report within the child's budget under a checked key is
      within the ROOT's, unless both rules are tagged (`TaggedRules` says when then). */
  lemma NarrowingIsSound(child: Scope, root: Scope, report: Report, key: string, i: nat, j: nat,
      numeric: string -> Option<real>)
    requires Narrows(child, root) && key in CHECKED_KEYS
    requires OneRulePerKey(child.budget) && i < |child.budget| && child.budget[i].key == key
    requires OneRulePerKey(root.budget) && j < |root.budget| && root.budget[j].key == key
    requires Within(Rows(report, key), EffectiveLimit(child.budget, key), numeric)
    requires !(EffectiveLimit(child.budget, key).Tagged? && EffectiveLimit(root.budget, key).Tagged?)
    ensures Within(Rows(report, key), EffectiveLimit(root.budget, key), numeric)
  {
    StatedIsEffective(child.budget, key, i);
    StatedIsEffective(root.budget, key, j);
    var c, r := EffectiveLimit(child.budget, key), EffectiveLimit(root.budget, key);
    assert !Wider(c, r);
    if r.Tagged? { NotWiderUnderTagged(c, r, numeric); }
  }

  lemma {:induction false} RootModeIsDeclared(locks: seq<LockReq>, name: string)
    ensures RootMode(locks, name).Some? ==> LockReq(name, RootMode(locks, name).value) in locks
  {
    if locks != [] {
      RootModeIsDeclared(DropLast(locks), name);
      assert locks == DropLast(locks) + [Last(locks)];
    }
  }

  /** A narrowing child can only be granted locks its ROOT declares, and exclusively only where the ROOT is
      exclusive. */
  lemma NarrowingCoversLocks(child: Scope, root: Scope, l: LockReq)
    requires Narrows(child, root) && l in child.locks
    ensures LockReq(l.name, Exclusive) in root.locks || (l.mode == Shared && LockReq(l.name, Shared) in root.locks)
  {
    assert LockCovered(l, root.locks);
    RootModeIsDeclared(root.locks, l.name);
    match RootMode(root.locks, l.name)
    case Some(Exclusive) => assert LockReq(l.name, Exclusive) in root.locks;
    case Some(Shared) => assert LockReq(l.name, Shared) in root.locks;
  }
}
