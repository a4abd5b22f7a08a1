/** What the scope check is worth for whole budgets, as contracts state them: a child that passes, and its ROOT. */
module Narrowing {
  import opened Prelude
  import opened StateStore
  import opened Budget
  import opened ContractBudget
  import opened TaggedRules

  /** Two scopes as contracts make them, the one within the other by the check. */
  ghost predicate Passes(child: Scope, root: Scope) {
    Narrows(child, root) && ValidBudget(child.budget) && ValidBudget(root.budget)
  }

  ghost predicate GenuineReport(report: Report, n: Notation) {
    forall key :: key in report.changes ==> GenuineRows(report.changes[key], n)
  }

  /** The child's rule stays within its ROOT's. */
  ghost predicate RuleCovers(child: Limit, root: Limit, n: Notation) {
    if child.Tagged? && root.Tagged? then TagCovers(child, root, n) else !Wider(child, root) || child == AtMost(0)
  }

  lemma RulesStated(rules: seq<Rule>, i: nat)
    requires ValidBudget(rules) && i < 6
    ensures |rules| == 6 == |BUDGET_KEYS| && ValidLimit(rules[i].limit)
    ensures StatedLimit(rules, BUDGET_KEYS[i]) == rules[i].limit == EffectiveLimit(rules, BUDGET_KEYS[i])
  {
    hide BUDGET_KEYS, ValidLimit;
    SixKeys();
    KeysAreDistinct();
    StatedIsEffective(rules, BUDGET_KEYS[i], i);
  }

  lemma CheckedKeys()
    ensures |BUDGET_KEYS| == 6 && forall i :: 0 <= i < 6 ==> (BUDGET_KEYS[i] in CHECKED_KEYS <==> i != 1)
    ensures forall key :: key in CHECKED_KEYS ==> exists i :: 0 <= i < 6 && i != 1 && BUDGET_KEYS[i] == key
  {
    assert CHECKED_KEYS[0] == BUDGET_KEYS[0] && CHECKED_KEYS[1] == BUDGET_KEYS[2] && CHECKED_KEYS[2] == BUDGET_KEYS[3];
    assert CHECKED_KEYS[3] == BUDGET_KEYS[4] && CHECKED_KEYS[4] == BUDGET_KEYS[5];
    assert BUDGET_KEYS[1] == "GAINED" && forall i :: 0 <= i < 5 ==> |CHECKED_KEYS[i]| != 6;
  }

  /** The report that changes these contexts and nothing else. */
  function Only(key: string, rows: seq<Context>): Report {
    Report(map[key := rows], 1)
  }

  lemma OnlyIsWithin(budget: seq<Rule>, key: string, rows: seq<Context>, numeric: string -> Option<real>)
    requires key in BUDGET_KEYS
    ensures WithinBudget(Only(key, rows), budget, numeric) <==> Within(rows, EffectiveLimit(budget, key), numeric)
  {
    hide BUDGET_KEYS;
    assert Rows(Only(key, rows), key) == rows;
    forall k | k in BUDGET_KEYS && k != key
      ensures Within(Rows(Only(key, rows), k), EffectiveLimit(budget, k), numeric)
    {
      EmptyIsWithin([], EffectiveLimit(budget, k), numeric);
    }
  }

  /** Every report within the child's whole budget is within its ROOT's. */
  ghost predicate Sound(child: Scope, root: Scope, n: Notation) {
    forall report :: GenuineReport(report, n) && WithinBudget(report, child.budget, n.numeric) ==>
                       WithinBudget(report, root.budget, n.numeric)
  }

  lemma SoundRuleByRule(child: Scope, root: Scope, n: Notation)
    requires ValidBudget(child.budget) && ValidBudget(root.budget)
    ensures |child.budget| == |root.budget| == 6
    ensures Sound(child, root, n) <==> forall i :: 0 <= i < 6 ==>
        Included(child.budget[i].limit, root.budget[i].limit, n)
  {
    hide BUDGET_KEYS, Within, ValidLimit;
    SixKeys();
    forall i: nat | i < 6
      ensures EffectiveLimit(child.budget, BUDGET_KEYS[i]) == child.budget[i].limit
      ensures EffectiveLimit(root.budget, BUDGET_KEYS[i]) == root.budget[i].limit
    {
      RulesStated(child.budget, i);
      RulesStated(root.budget, i);
    }
    if Sound(child, root, n) {
      forall i, rows | 0 <= i < 6 && GenuineRows(rows, n) && Within(rows, child.budget[i].limit, n.numeric)
        ensures Within(rows, root.budget[i].limit, n.numeric)
      {
        OnlyIsWithin(child.budget, BUDGET_KEYS[i], rows, n.numeric);
        OnlyIsWithin(root.budget, BUDGET_KEYS[i], rows, n.numeric);
        assert GenuineReport(Only(BUDGET_KEYS[i], rows), n);
      }
    }
    if forall i :: 0 <= i < 6 ==> Included(child.budget[i].limit, root.budget[i].limit, n) {
      forall report, key | GenuineReport(report, n) && WithinBudget(report, child.budget, n.numeric)
          && key in BUDGET_KEYS
        ensures Within(Rows(report, key), EffectiveLimit(root.budget, key), n.numeric)
      {
        var i :| 0 <= i < |BUDGET_KEYS| && BUDGET_KEYS[i] == key;
        assert GenuineRows(Rows(report, key), n);
        assert Included(child.budget[i].limit, root.budget[i].limit, n);
      }
    }
  }

  /** What the scope check leaves open, settled for every pair of contracts that passes it: each report within the
      child's whole budget is within its ROOT's if and only if the child's GAINED rule stays within its ROOT's and,
      under each compared key where both rules are tagged, the child's tag is covered. */
  lemma NarrowingIsSoundExactly(child: Scope, root: Scope, n: Notation)
    requires Lawful(n) && Passes(child, root)
    ensures |child.budget| == |root.budget| == 6
    ensures Sound(child, root, n) <==>
            && RuleCovers(child.budget[1].limit, root.budget[1].limit, n)
            && forall i :: 0 <= i < 6 && i != 1 && child.budget[i].limit.Tagged? && root.budget[i].limit.Tagged? ==>
                 TagCovers(child.budget[i].limit, root.budget[i].limit, n)
  {
    hide BUDGET_KEYS, CHECKED_KEYS, ValidLimit, Lawful, Included, TagCovers, Wider, Sound;
    SoundRuleByRule(child, root, n);
    CheckedKeys();
    forall i: nat | i < 6
      ensures Included(child.budget[i].limit, root.budget[i].limit, n)
          <==> RuleCovers(child.budget[i].limit, root.budget[i].limit, n)
      ensures i != 1 ==> !Wider(child.budget[i].limit, root.budget[i].limit)
    {
      RulesStated(child.budget, i);
      RulesStated(root.budget, i);
      ComparisonExactly(child.budget[i].limit, root.budget[i].limit, n);
    }
  }

  // --- the two gaps ---------------------------------------------------------------------------------

  function Restated(s: Scope, i: nat, limit: Limit): Scope
    requires i < |s.budget|
  {
    s.(budget := s.budget[i := Rule(s.budget[i].key, limit)])
  }

  /** Restating one rule of each scope keeps the check passed, if that rule is not compared or passes itself. */
  lemma RestatedPasses(child: Scope, root: Scope, i: nat, c: Limit, r: Limit)
    requires Passes(child, root) && i < 6 && ValidLimit(c) && ValidLimit(r) && (i == 1 || !Wider(c, r))
    ensures |child.budget| == |root.budget| == 6 && Passes(Restated(child, i, c), Restated(root, i, r))
  {
    hide BUDGET_KEYS, CHECKED_KEYS, ValidLimit, Wider, StatedLimit, EffectiveLimit, LockCovered;
    SixKeys();
    var child', root' := Restated(child, i, c), Restated(root, i, r);
    forall k: nat | k < 6
      ensures StatedLimit(child.budget, BUDGET_KEYS[k]) == child.budget[k].limit
      ensures StatedLimit(root.budget, BUDGET_KEYS[k]) == root.budget[k].limit
      ensures StatedLimit(child'.budget, BUDGET_KEYS[k]) == child'.budget[k].limit
      ensures StatedLimit(root'.budget, BUDGET_KEYS[k]) == root'.budget[k].limit
    {
      RulesStated(child.budget, k);
      RulesStated(root.budget, k);
      RulesStated(child'.budget, k);
      RulesStated(root'.budget, k);
    }
    CheckedKeys();
    forall key | key in CHECKED_KEYS ensures !Wider(StatedLimit(child'.budget, key), StatedLimit(root'.budget, key)) {
      var k :| 0 <= k < 6 && k != 1 && BUDGET_KEYS[k] == key;
      assert !Wider(StatedLimit(child.budget, key), StatedLimit(root.budget, key));
    }
  }

  lemma OnlyTells(child: Scope, root: Scope, i: nat, rows: seq<Context>, numeric: string -> Option<real>)
    requires ValidBudget(child.budget) && ValidBudget(root.budget) && i < 6
    ensures |child.budget| == |root.budget| == 6 == |BUDGET_KEYS|
    ensures WithinBudget(Only(BUDGET_KEYS[i], rows), child.budget, numeric)
        <==> Within(rows, child.budget[i].limit, numeric)
    ensures WithinBudget(Only(BUDGET_KEYS[i], rows), root.budget, numeric)
        <==> Within(rows, root.budget[i].limit, numeric)
  {
    hide BUDGET_KEYS, ValidLimit, Within;
    RulesStated(child.budget, i);
    RulesStated(root.budget, i);
    OnlyIsWithin(child.budget, BUDGET_KEYS[i], rows, numeric);
    OnlyIsWithin(root.budget, BUDGET_KEYS[i], rows, numeric);
  }

  /** GAINED is not compared. Any two contracts that pass still pass when the child allows some gains and its ROOT none,
      and then a report that only gains is within the child's whole budget and not within its ROOT's. */
  lemma GainedMayWiden(child: Scope, root: Scope, allowed: nat, numeric: string -> Option<real>)
    requires Passes(child, root) && allowed > 0
    ensures |child.budget| == |root.budget| == 6 == |BUDGET_KEYS|
    ensures var c, r := Restated(child, 1, AtMost(allowed)), Restated(root, 1, Forbidden);
            var report := Only(BUDGET_KEYS[1], Copies(map[], allowed));
            Passes(c, r) && WithinBudget(report, c.budget, numeric) && !WithinBudget(report, r.budget, numeric)
  {
    hide BUDGET_KEYS;
    RestatedPasses(child, root, 1, AtMost(allowed), Forbidden);
    OnlyTells(Restated(child, 1, AtMost(allowed)), Restated(root, 1, Forbidden), 1, Copies(map[], allowed), numeric);
  }

  const SAFE := Tagged("safe_room", "==", "true")
  const UNSAFE := Tagged("safe_room", "==", "false")

  lemma SafeTags()
    ensures ValidLimit(SAFE) && ValidLimit(UNSAFE) && !Wider(SAFE, UNSAFE)
  {
    assert COMPARISONS[0] == "==";
  }

  lemma SafeRow(rows: seq<Context>, numeric: string -> Option<real>)
    requires rows == [map["safe_room" := Flag(true)]]
    ensures Within(rows, SAFE, numeric) && !Within(rows, UNSAFE, numeric)
  {
    hide Truthy;
    assert DropLast(rows) == [] && Last(rows) == rows[0];
    EmptyIsWithin(DropLast(rows), SAFE, numeric);
    EmptyIsWithin(DropLast(rows), UNSAFE, numeric);
    SafeWords();
    assert ContextMatches(rows[0], "safe_room", "==", "true", numeric);
    assert !ContextMatches(rows[0], "safe_room", "==", "false", numeric);
  }

  lemma SafeWords()
    ensures Truthy("true") && !Truthy("false")
  {
    hide Lower;
    LowerWords();
  }

  lemma LowerWords()
    ensures Lower("true") == "true" && Lower("false") == "false"
  {
  }

  /** Two tags are never refused. Any two contracts that pass still pass when the child lets the plans of houses with a
      safe room change and its ROOT those of houses without; a report that changes one is within the child's whole
      budget and not within its ROOT's. */
  lemma TaggedMayEscape(child: Scope, root: Scope, numeric: string -> Option<real>)
    requires Passes(child, root)
    ensures |child.budget| == |root.budget| == 6 == |BUDGET_KEYS|
    ensures var c, r := Restated(child, 5, SAFE), Restated(root, 5, UNSAFE);
            var report := Only(BUDGET_KEYS[5], [map["safe_room" := Flag(true)]]);
            Passes(c, r) && WithinBudget(report, c.budget, numeric) && !WithinBudget(report, r.budget, numeric)
  {
    hide BUDGET_KEYS, ValidLimit, Wider, Within;
    SafeTags();
    RestatedPasses(child, root, 5, SAFE, UNSAFE);
    var rows: seq<Context> := [map["safe_room" := Flag(true)]];
    OnlyTells(Restated(child, 5, SAFE), Restated(root, 5, UNSAFE), 5, rows, numeric);
    SafeRow(rows, numeric);
  }
}
