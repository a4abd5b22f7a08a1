/** The Issue contract: parsed from an Issue body, and printed as one. */
module IssueContract {
  import opened Prelude
  import opened Text
  import opened StateStore
  import opened Budget
  import opened IssueSections
  import opened ContractFields
  import opened ContractRules
  import opened ContractBudget

  const GOAL := "Goal"
  const CURRENT := "Current behavior"
  const REQUIRED := "Required behavior"
  const CRITERIA := "Acceptance Criteria"
  const OUT_OF_SCOPE := "Out of scope"
  const AFFECTED := "Affected domains"
  const RISK := "Risk"
  const RESOURCE := "Resource class"
  const DEPENDENCIES := "Dependencies"
  const LOCKS := "Required locks"
  const VERIFICATION := "Verification plan"
  const BUDGET := "Regression budget"
  const DOCS := "Expected documentation changes"
  const AUTHORIZATION := "Authorization"

  const REQUIRED_SECTIONS: seq<string> := [GOAL, CURRENT, REQUIRED, CRITERIA, OUT_OF_SCOPE, AFFECTED, RISK, RESOURCE,
                                           DEPENDENCIES, LOCKS, VERIFICATION, BUDGET, DOCS]

  datatype Contract = Contract(
    number: int, title: string, goal: string, current: string, required: string, acs: seq<Criterion>,
    outOfScope: string, domains: seq<string>, risk: string, resource: string, deps: seq<nat>,
    locks: seq<LockReq>, verification: seq<Target>,
    budget: seq<Rule>, docs: string, extra: seq<Section>)

  /** What parsing is given besides the Issue; `authorizes` judges an Authorization section. */
  datatype Env = Env(knownLocks: Option<set<string>>, behaviorDomains: set<string>, authorizes: (int, string) -> bool)

  // --- parsing -----------------------------------------------------------------------------------

  function Clean(value: string): string {
    if Strip(value) == NO_RESPONSE then "" else Strip(value)
  }

  function TextOf(sections: seq<Section>, name: string): string {
    match Lookup(sections, name)
    case None => ""
    case Some(v) => Clean(v)
  }

  function Extras(sections: seq<Section>): (r: seq<Section>) {
    if sections == [] then []
    else
      (if sections[0].key in REQUIRED_SECTIONS then [] else [Section(sections[0].key, Clean(sections[0].value))])
      + Extras(sections[1..])
  }

  predicate Complete(sections: seq<Section>) {
    forall name :: name in REQUIRED_SECTIONS ==> Lookup(sections, name).Some?
  }

  predicate ChangesBehavior(domains: seq<string>, env: Env) {
    exists d :: d in domains && d in env.behaviorDomains
  }

  predicate Authorized(number: int, text: string, env: Env) {
    text != "" ==> env.authorizes(number, text)
  }

  function DomainsIn(text: string): Option<seq<string>> {
    if text == "" then None else DomainsOf(SplitAt(text, AtCommas))
  }

  function CriteriaIn(text: string): Option<seq<Criterion>> {
    var acs := CriteriaOf(SplitAt(text, AtBreaks));
    if acs == Some([]) then None else acs
  }

  function TargetsIn(text: string, acs: seq<Criterion>, behaviorChanging: bool): Option<seq<Target>> {
    var ts := TargetsOf(SplitAt(text, AtBreaks), acs);
    if ts.Some? && Evidence(ts.value, acs, behaviorChanging) then ts else None
  }

  /** `None` when parsing finds any problem. */
  function FromSections(number: int, title: string, s: seq<Section>, env: Env): Option<Contract> {
    if !Complete(s) then None
    else
      var goal, current, required, outOfScope, docs :=
        TextOf(s, GOAL), TextOf(s, CURRENT), TextOf(s, REQUIRED), TextOf(s, OUT_OF_SCOPE), TextOf(s, DOCS);
      var acs, domains, risk, resource := CriteriaIn(TextOf(s, CRITERIA)), DomainsIn(TextOf(s, AFFECTED)),
                                          ChoiceOf(TextOf(s, RISK), RISKS),
                                          ChoiceOf(TextOf(s, RESOURCE), RESOURCE_CLASSES);
      var deps, locks := DependenciesIn(TextOf(s, DEPENDENCIES), number), LocksIn(TextOf(s, LOCKS), env.knownLocks);
      if "" in {goal, current, required, outOfScope, docs} || !Authorized(number, TextOf(s, AUTHORIZATION), env)
      then None
      else if acs.None? || domains.None? || risk.None? || resource.None? || deps.None? || locks.None? then None
      else
        var targets := TargetsIn(TextOf(s, VERIFICATION), acs.value, ChangesBehavior(domains.value, env));
        var budget := BudgetIn(TextOf(s, BUDGET), risk.value);
        if targets.None? || budget.None? then None
        else Some(Contract(number, Strip(title), goal, current, required, acs.value, outOfScope, domains.value,
            risk.value,
                           resource.value, deps.value, locks.value, targets.value, budget.value, docs, Extras(s)))
  }

  function Parse(number: int, title: string, body: string, env: Env): Option<Contract> {
    FromSections(number, title, SectionsOf(body), env)
  }

  method ParseContract(number: int, title: string, body: string, env: Env) returns (c: Option<Contract>)
    ensures c == Parse(number, title, body, env)
  {
    hide TextOf, CriteriaOf, DomainsOf, ChoiceOf, DependenciesIn, LocksIn, TargetsOf, Evidence, BudgetIn, Extras,
         SplitAt, Complete, SectionsOf, Strip, Authorized, ChangesBehavior;
    var s := SplitSections(body);
    if !Complete(s) { return None; }
    var ok := true;
    var goal, current, required, outOfScope, docs :=
      TextOf(s, GOAL), TextOf(s, CURRENT), TextOf(s, REQUIRED), TextOf(s, OUT_OF_SCOPE), TextOf(s, DOCS);
    if "" in {goal, current, required, outOfScope, docs} { ok := false; }
    var acs := ParseCriteria(TextOf(s, CRITERIA));
    if acs.None? || acs.value == [] { ok := false; }
    var domains := ParseDomains(TextOf(s, AFFECTED));
    if domains.None? { ok := false; }
    var risk := ChoiceOf(TextOf(s, RISK), RISKS);
    if risk.None? { ok := false; }
    var resource := ChoiceOf(TextOf(s, RESOURCE), RESOURCE_CLASSES);
    if resource.None? { ok := false; }
    var deps := ParseDependencies(TextOf(s, DEPENDENCIES), number);
    if deps.None? { ok := false; }
    var locks := ParseLocks(TextOf(s, LOCKS), env.knownLocks);
    if locks.None? { ok := false; }
    if !ok || !Authorized(number, TextOf(s, AUTHORIZATION), env) { return None; }
    var targets := ParseVerification(TextOf(s, VERIFICATION), acs.value, ChangesBehavior(domains.value, env));
    var budget := ParseBudget(TextOf(s, BUDGET), risk.value);
    if targets.None? || budget.None? { return None; }
    c := Some(Contract(number, Strip(title), goal, current, required, acs.value, outOfScope, domains.value, risk.value,
                       resource.value, deps.value, locks.value, targets.value, budget.value, docs, Extras(s)));
  }

  /** What it means that some sections parse as a contract. */
  ghost predicate Gives(s: seq<Section>, number: int, title: string, c: Contract, env: Env) {
    && Complete(s) && Authorized(number, TextOf(s, AUTHORIZATION), env) && c.extra == Extras(s)
    && c.number == number && c.title == Strip(title)
    && c.goal == TextOf(s, GOAL) != "" && c.current == TextOf(s, CURRENT) != ""
    && c.required == TextOf(s, REQUIRED) != ""
    && c.outOfScope == TextOf(s, OUT_OF_SCOPE) != "" && c.docs == TextOf(s, DOCS) != ""
    && CriteriaIn(TextOf(s, CRITERIA)) == Some(c.acs) && DomainsIn(TextOf(s, AFFECTED)) == Some(c.domains)
    && ChoiceOf(TextOf(s, RISK), RISKS) == Some(c.risk)
    && ChoiceOf(TextOf(s, RESOURCE), RESOURCE_CLASSES) == Some(c.resource)
    && DependenciesIn(TextOf(s, DEPENDENCIES), number) == Some(c.deps)
    && LocksIn(TextOf(s, LOCKS), env.knownLocks) == Some(c.locks)
    && TargetsIn(TextOf(s, VERIFICATION), c.acs, ChangesBehavior(c.domains, env)) == Some(c.verification)
    && BudgetIn(TextOf(s, BUDGET), c.risk) == Some(c.budget)
  }

  lemma ParsesMeansGives(s: seq<Section>, number: int, title: string, c: Contract, env: Env)
    ensures FromSections(number, title, s, env) == Some(c) <==> Gives(s, number, title, c, env)
  {
    hide TextOf, CriteriaIn, DomainsIn, ChoiceOf, DependenciesIn, LocksIn, TargetsIn, BudgetIn, Extras, Complete,
         Strip, Authorized, ChangesBehavior;
  }

  // --- printing ----------------------------------------------------------------------------------

  function RequiredParts(c: Contract): seq<Section> {
    [Section(GOAL, c.goal), Section(CURRENT, c.current), Section(REQUIRED, c.required),
     Section(CRITERIA, Join(CriterionLines(c.acs), "\n")), Section(OUT_OF_SCOPE, c.outOfScope),
     Section(AFFECTED, Join(c.domains, ", ")), Section(RISK, c.risk), Section(RESOURCE, c.resource),
     Section(DEPENDENCIES, DependenciesText(c.deps)), Section(LOCKS, LocksText(c.locks)),
     Section(VERIFICATION, Join(TargetLines(c.verification), "\n")), Section(BUDGET, Join(RuleLines(c.budget), "\n")),
     Section(DOCS, c.docs)]
  }

  function Sections(c: Contract): seq<Section> {
    RequiredParts(c) + c.extra
  }

  function RenderBody(c: Contract): string {
    PrintAll(Sections(c))
  }
}
