/** A stored contract is printed and parsed again at every step. When is it still the contract that was admitted? */
module ContractRoundTrip {
  import opened Prelude
  import opened Text
  import opened StateStore
  import opened Budget
  import opened IssueSections
  import opened SectionRoundTrip
  import opened ContractFields
  import opened ContractRules
  import opened ContractBudget
  import opened IssueContract
  import opened ContractShape
  import opened ContractPrint

  // --- exactly when a contract survives ----------------------------------------------------------

  /** Nothing in the contract is lost in print: some domain is named, no verification target ends in a backtick, no
      further section has an empty label, and no text holds a Windows line end or a heading row. */
  predicate Faithful(c: Contract) {
    && c.domains != [] && NoTicks(c.verification) && Sound(Sections(c))
    && forall i :: 0 <= i < |c.extra| ==> c.extra[i].key != ""
  }

  ghost predicate Texts13(c: Contract, s: seq<Section>) {
    && TextOf(s, GOAL) == Clean(Shown(c.goal)) && TextOf(s, CURRENT) == Clean(Shown(c.current))
    && TextOf(s, REQUIRED) == Clean(Shown(c.required))
    && TextOf(s, CRITERIA) == Clean(Shown(Join(CriterionLines(c.acs), "\n")))
    && TextOf(s, OUT_OF_SCOPE) == Clean(Shown(c.outOfScope))
    && TextOf(s, AFFECTED) == Clean(Shown(Join(c.domains, ", ")))
    && TextOf(s, RISK) == Clean(Shown(c.risk)) && TextOf(s, RESOURCE) == Clean(Shown(c.resource))
    && TextOf(s, DEPENDENCIES) == Clean(Shown(DependenciesText(c.deps)))
    && TextOf(s, LOCKS) == Clean(Shown(LocksText(c.locks)))
    && TextOf(s, VERIFICATION) == Clean(Shown(Join(TargetLines(c.verification), "\n")))
    && TextOf(s, BUDGET) == Clean(Shown(Join(RuleLines(c.budget), "\n"))) && TextOf(s, DOCS) == Clean(Shown(c.docs))
  }

  lemma PaperTexts(c: Contract)
    requires ValidExtras(c.extra)
    ensures Texts13(c, Paper(Sections(c)))
  {
    hide ValidExtras, Paper, TextOf, Clean, Shown, Join;
    var l := Sections(c);
    forall i | 0 <= i < |l| ensures TextOf(Paper(l), l[i].key) == Clean(Shown(l[i].value)) { TextAt(c, i); }
    assert l[0] == Section(GOAL, c.goal) && l[1] == Section(CURRENT, c.current);
    assert l[2] == Section(REQUIRED, c.required);
    assert l[3] == RequiredParts(c)[3] && l[4] == RequiredParts(c)[4] && l[5] == RequiredParts(c)[5];
    assert l[6] == RequiredParts(c)[6];
    assert l[7] == RequiredParts(c)[7] && l[8] == RequiredParts(c)[8] && l[9] == RequiredParts(c)[9];
    assert l[10] == RequiredParts(c)[10];
    assert l[11] == RequiredParts(c)[11] && l[12] == RequiredParts(c)[12];
  }

  lemma PlainIsProse(text: string)
    requires Plain(text)
    ensures Prose(text) && Clean(Shown(text)) == text && Shown(text) == text && !Suspect(text)
  {
    hide Suspect;
    CleanProse(text);
  }

  /** The lists of the page read back, each from its own section. */
  lemma ListsReadBack(c: Contract, env: Env)
    requires WellFormed(c, env)
    ensures CriteriaIn(Clean(Shown(Join(CriterionLines(c.acs), "\n")))) == Some(c.acs)
    ensures DependenciesIn(Clean(Shown(DependenciesText(c.deps))), c.number) == Some(c.deps)
    ensures LocksIn(Clean(Shown(LocksText(c.locks))), env.knownLocks) == Some(c.locks)
    ensures BudgetIn(Clean(Shown(Join(RuleLines(c.budget), "\n"))), c.risk) == Some(c.budget)
    ensures ChoiceOf(Clean(Shown(c.risk)), RISKS) == Some(c.risk)
    ensures ChoiceOf(Clean(Shown(c.resource)), RESOURCE_CLASSES) == Some(c.resource)
  {
    hide Plain, Clean, Shown, Prose, ValidCriteria, ValidDependencies, ValidLocks, ValidBudget, ValidTargets,
         ValidExtras, BudgetIn, CriteriaIn, DependenciesIn, LocksIn, ChoiceOf, Trimmed, RISKS, RESOURCE_CLASSES,
         LostAllowed, Evidence, ChangesBehavior, Authorized, Join, Suspect;
    CriteriaPlain(c.acs);
    PlainIsProse(Join(CriterionLines(c.acs), "\n"));
    CriteriaInReadsBack(c.acs);
    DependenciesPlain(c.deps);
    PlainIsProse(DependenciesText(c.deps));
    DependenciesInReadsBack(c.deps, c.number);
    LocksPlain(c.locks, env.knownLocks);
    PlainIsProse(LocksText(c.locks));
    LocksInReadsBack(c.locks, env.knownLocks);
    BudgetPlain(c.budget);
    PlainIsProse(Join(RuleLines(c.budget), "\n"));
    BudgetReadsBack(c.budget, c.risk);
    ChoicesAreWords(c.risk);
    ChoicesAreWords(c.resource);
    ChoicePlain(c.risk);
    ChoicePlain(c.resource);
    PlainIsProse(c.risk);
    PlainIsProse(c.resource);
    ChoiceReadsBack(c.risk, RISKS);
    ChoiceReadsBack(c.resource, RESOURCE_CLASSES);
  }

  lemma CriteriaInReadsBack(acs: seq<Criterion>)
    requires ValidCriteria(acs) && acs != []
    ensures CriteriaIn(Join(CriterionLines(acs), "\n")) == Some(acs)
  {
    hide Uncut, Cuts, Break, SplitAt, CriterionId, Trimmed, CriteriaOf;
    DashUnbroken();
    forall i | 0 <= i < |acs| ensures Uncut(CriterionLines(acs)[i], AtBreaks) {
      IdUnbroken(acs[i].id);
      UncutConcat("- ", acs[i].id, AtBreaks);
      UncutConcat("- " + acs[i].id, ": ", AtBreaks);
      UncutConcat("- " + acs[i].id + ": ", acs[i].text, AtBreaks);
    }
    CommaCuts();
    SplitJoined(CriterionLines(acs), AtBreaks);
    CriteriaReadBack(acs);
  }

  lemma DependenciesInReadsBack(deps: seq<nat>, number: int)
    requires ValidDependencies(deps, number)
    ensures DependenciesIn(DependenciesText(deps), number) == Some(deps)
  {
    hide Strip, DependenciesOf, SplitAt, Lower, Plain, Decimal, NO_DEPENDENCIES;
    DependenciesPlain(deps);
    PlainStays(DependenciesText(deps));
    if deps == [] {
      NoneIsNone();
    } else {
      TokensReadBack(deps, number);
      JoinStart(Tokens(deps), ", ");
      assert DependenciesText(deps)[0] == '#';
      HashIsNotNone(DependenciesText(deps));
    }
  }

  lemma PlainStays(text: string)
    requires Plain(text)
    ensures Strip(text) == text
  {
    StripTrimmed(text);
  }

  lemma NoneIsNone()
    ensures Lower("none") in NO_DEPENDENCIES && Lower("none") in NO_LOCKS
  {
    LowerPlain("none");
  }

  lemma HashIsNotNone(text: string)
    requires text != "" && text[0] == '#'
    ensures Lower(text) !in NO_DEPENDENCIES
  {
    LowerAt(text, 0);
  }

  lemma BracketIsNotNone(text: string)
    requires text != "" && Last(text) == ')'
    ensures Lower(text) !in NO_LOCKS
  {
    LowerAt(text, |text| - 1);
    assert Last(Lower(text)) == ')';
  }

  lemma LocksInReadsBack(locks: seq<LockReq>, known: Option<set<string>>)
    requires ValidLocks(locks, known)
    ensures LocksIn(LocksText(locks), known) == Some(locks)
  {
    hide Strip, LocksOf, SplitAt, Lower, Plain, NO_LOCKS, LockText, LockName, Uncut, Trimmed;
    LocksPlain(locks, known);
    PlainStays(LocksText(locks));
    if locks == [] {
      NoneIsNone();
    } else {
      LocksReadBack(locks, known);
      var texts := LockTexts(locks);
      forall i | 0 <= i < |locks| ensures texts[i] != "" && Last(texts[i]) == ')' { LockTextInk(locks[i]); }
      JoinEnds(texts, ", ");
      BracketIsNotNone(LocksText(locks));
    }
  }

  lemma DomainsInReadsBack(ds: seq<string>)
    requires ValidDomains(ds)
    ensures DomainsIn(Clean(Shown(Join(ds, ", ")))) == if ds == [] then None else Some(ds)
  {
    hide Plain, Suspect, DomainsOf, SplitAt, Strip, Trimmed;
    if ds == [] {
      NothingIsNotSuspect();
      NoResponseStands();
      StripTrimmed(NO_RESPONSE);
    } else {
      DomainsPlain(ds);
      PlainIsProse(Join(ds, ", "));
      assert Join(ds, ", ") != "" by { PlainIsInk(Join(ds, ", ")); }
      DomainsReadBack(ds);
    }
  }

  lemma PlainIsInk(text: string)
    requires Plain(text)
    ensures text != ""
  {
  }

  lemma TargetsInReadBack(c: Contract, env: Env)
    requires WellFormed(c, env)
    ensures var text := Clean(Shown(Join(TargetLines(c.verification), "\n")));
            TargetsIn(text, c.acs, ChangesBehavior(c.domains, env)) == Some(c.verification) <==> NoTicks(c.verification)
  {
    hide Plain, Suspect, SplitAt, Strip, Trimmed, Clean, Shown, Prose, ValidCriteria, ValidDomains, ValidDependencies,
         ValidLocks, ValidBudget, ValidExtras, Evidence, ChangesBehavior, Authorized, LostAllowed, Uncut, Join,
         TargetsOf, ValidTarget, HasId, NoTicks, TargetLine;
    var lines := TargetLines(c.verification);
    TargetsPlain(c.verification, c.acs);
    PlainIsProse(Join(lines, "\n"));
    forall i | 0 <= i < |lines| ensures Uncut(lines[i], AtBreaks) { TargetLineUncut(c.verification[i]); }
    CommaCuts();
    SplitJoined(lines, AtBreaks);
    TargetsReadBack(c.verification, c.acs);
  }

  lemma TargetLineUncut(t: Target)
    requires ValidTarget(t)
    ensures Uncut(TargetLine(t), AtBreaks)
  {
    hide Uncut, Cuts, SpecHead, CriterionId, KINDS, TargetOk, Trimmed;
    DashUnbroken();
    IdUnbroken(t.ac);
    SpecHeadInk(t.kind);
    UncutConcat("- ", t.ac, AtBreaks);
    UncutConcat("- " + t.ac, " -> ", AtBreaks);
    UncutConcat("- " + t.ac + " -> ", SpecHead(t.kind), AtBreaks);
    UncutConcat("- " + t.ac + " -> " + SpecHead(t.kind), t.target, AtBreaks);
  }

  /** On a page that says what a well-formed contract says, only domains and backticks decide whether it reads back. */
  lemma PageGives(c: Contract, env: Env, page: seq<Section>)
    requires WellFormed(c, env) && Texts13(c, page) && Complete(page) && Extras(page) == c.extra
    ensures Gives(page, c.number, c.title, c, env) <==> c.domains != [] && NoTicks(c.verification)
  {
    hide Prose, ValidCriteria, ValidDomains, ValidDependencies, ValidLocks, ValidBudget, ValidTargets, ValidExtras,
         Evidence, LostAllowed, Trimmed, TextOf, Clean, Shown, Join, CriteriaIn, DomainsIn, DependenciesIn, LocksIn,
         TargetsIn, BudgetIn, ChoiceOf, Complete, Extras, Strip, ChangesBehavior, Authorized,
         NoTicks, RISKS, RESOURCE_CLASSES, AuthorizationText;
    ExtrasAuthorization(page);
    StripTrimmed(c.title);
    var texts := [c.goal, c.current, c.required, c.outOfScope, c.docs];
    forall i | 0 <= i < 5 ensures Clean(Shown(texts[i])) == texts[i] != "" {
      assert texts[i] in texts;
      CleanProse(texts[i]);
    }
    assert Clean(Shown(c.goal)) == c.goal != "" by { assert c.goal == texts[0]; }
    assert Clean(Shown(c.current)) == c.current != "" by { assert c.current == texts[1]; }
    assert Clean(Shown(c.required)) == c.required != "" by { assert c.required == texts[2]; }
    assert Clean(Shown(c.outOfScope)) == c.outOfScope != "" by { assert c.outOfScope == texts[3]; }
    assert Clean(Shown(c.docs)) == c.docs != "" by { assert c.docs == texts[4]; }
    ListsReadBack(c, env);
    DomainsInReadsBack(c.domains);
    TargetsInReadBack(c, env);
  }

  lemma PaperIsOrderly(c: Contract)
    requires ValidExtras(c.extra)
    ensures var page := Paper(Sections(c)); Texts13(c, page) && Complete(page) && Extras(page) == c.extra
  {
    hide ValidExtras, Texts13, Complete, Extras, Paper, Sections;
    PaperTexts(c);
    PaperIsComplete(c);
    ExtrasOfPaper(c);
  }

  // --- what is lost stays lost -------------------------------------------------------------------

  /** A body that ends like a printed one, with ink and then one line end, has no section without a label. */
  ghost predicate EndsInInk(rows: seq<string>) {
    rows != [] && Last(rows) == "" && (|rows| > 1 ==> rows[|rows| - 2] != "" && !Space(Last(rows[|rows| - 2])))
  }

  lemma HeadingIsNamed(rows: seq<string>)
    requires EndsInInk(rows) && Heading(rows).Some?
    ensures Heading(rows).value.key != ""
  {
    hide Space, Strip;
    StripBlank(rows[0][3..]);
    var k := LeadBlanks(rows[1..]);
    if k + 1 < |rows| { StripBlank(rows[k + 1]); }
    assert |rows| >= 2 ==> rows[1..][|rows| - 2] == "";
    if |rows| > 2 {
      InkIsNotBlank(rows[|rows| - 2]);
      assert rows[1..][|rows| - 3] == rows[|rows| - 2];
    } else if |rows| == 2 && Blank(rows[0][3..]) {
      BareRow(rows[0]);
    }
  }

  lemma InkIsNotBlank(s: string)
    requires s != "" && !Space(Last(s))
    ensures !Blank(s)
  {
  }

  lemma {:induction false} EveryLabelIsNamed(rows: seq<string>)
    requires rows == [] || EndsInInk(rows)
    ensures forall s :: s in Scan(rows) ==> s.key != ""
    decreases |rows|
  {
    hide Space, Strip, Heading, ToNext, Unlines;
    if rows != [] {
      match Heading(rows)
      case None => EveryLabelIsNamed(rows[1..]);
      case Some(h) =>
        HeadingIsNamed(rows);
        var text := rows[h.used..];
        var n := ToNext(text);
        EveryLabelIsNamed(text[n..]);
        assert Scan(rows) == [Section(h.key, Strip(Unlines(text[..n])))] + Scan(text[n..]);
    }
  }

  lemma {:induction false} PrintEnds(sections: seq<Section>) returns (text: string)
    requires sections != []
    ensures PrintAll(sections) == text + "\n" && text != "" && !Space(Last(text))
  {
    hide Space, Strip;
    NoResponseStands();
    if |sections| == 1 {
      text := "### " + sections[0].key + "\n\n" + Shown(sections[0].value);
      assert Last(text) == Last(Shown(sections[0].value));
    } else {
      var rest := PrintEnds(sections[1..]);
      text := Print(sections[0]) + "\n" + rest;
      assert PrintAll(sections) == text + "\n" && Last(text) == Last(rest);
    }
  }

  lemma PrintedLabels(sections: seq<Section>)
    requires sections != []
    ensures forall s :: s in SectionsOf(PrintAll(sections)) ==> s.key != ""
  {
    hide Space, Unify, SplitAt, PrintAll, Scan;
    var text := PrintEnds(sections);
    LineEndsAreSpace();
    UnifyConcat(text, "\n");
    NoLineEnds("\n");
    UnifyKeepsEnds(text);
    var u := Unify(text);
    SplitConcat(u, '\n', "", AtNewlines) by { CommaCuts(); }
    assert u + ['\n'] + "" == u + "\n";
    NothingToSplit(AtNewlines);
    LastRow(u);
    var rows := IssueSections.Rows(u) + [""];
    assert rows[|rows| - 2] == Last(IssueSections.Rows(u));
    EveryLabelIsNamed(rows);
  }

  lemma TextKept(d: seq<Section>, name: string, text: string)
    requires (forall s :: s in d ==> Shaped(s)) && TextOf(d, name) == text != ""
    ensures Lookup(d, name) == Some(Shown(text))
  {
    hide Strip, Trimmed;
    StripTrimmed(Lookup(d, name).value);
  }

  lemma {:induction false} ExtraText(d: seq<Section>, x: Section)
    requires Distinct(d) && (forall s :: s in d ==> Shaped(s)) && x in Extras(d)
    ensures TextOf(d, x.key) == x.value
  {
    hide Shaped, Clean, REQUIRED_SECTIONS, ExtraOk;
    if x in Extras(d[1..]) {
      ExtrasAreOk(d[1..]);
      var i :| 0 <= i < |Extras(d[1..])| && Extras(d[1..])[i] == x;
      KeyElsewhere(d, x.key);
      ExtraText(d[1..], x);
    }
  }

  predicate Structured(i: nat) {
    i == 3 || 5 <= i <= 11
  }

  lemma ChoiceNotSuspect(v: string)
    requires v in RISKS || v in RESOURCE_CLASSES
    ensures !Suspect(v)
  {
    hide Plain, Suspect, Prose, RISKS, RESOURCE_CLASSES, Capitals;
    ChoicesAreWords(v);
    ChoicePlain(v);
    PlainIsProse(v);
  }

  lemma PlainNotSuspect(text: string)
    requires Plain(text)
    ensures !Suspect(text)
  {
  }

  lemma ListsNotSuspect(c: Contract, env: Env)
    requires WellFormed(c, env)
    ensures !Suspect(Join(CriterionLines(c.acs), "\n")) && !Suspect(Join(c.domains, ", ")) && !Suspect(c.risk)
    ensures !Suspect(c.resource)
    ensures !Suspect(DependenciesText(c.deps)) && !Suspect(LocksText(c.locks))
    ensures !Suspect(Join(TargetLines(c.verification), "\n")) && !Suspect(Join(RuleLines(c.budget), "\n"))
  {
    hide Plain, Suspect, Prose, ValidCriteria, ValidDomains, ValidDependencies, ValidLocks, ValidBudget, ValidTargets,
         ValidExtras, Evidence, LostAllowed, Trimmed, Join, ChangesBehavior, Authorized, RISKS, RESOURCE_CLASSES,
         DependenciesText, LocksText, AuthorizationText, CriterionLines, TargetLines, RuleLines;
    CriteriaPlain(c.acs);
    PlainNotSuspect(Join(CriterionLines(c.acs), "\n"));
    DomainsNotSuspect(c.domains);
    ChoiceNotSuspect(c.risk);
    ChoiceNotSuspect(c.resource);
    DependenciesPlain(c.deps);
    PlainNotSuspect(DependenciesText(c.deps));
    LocksPlain(c.locks, env.knownLocks);
    PlainNotSuspect(LocksText(c.locks));
    TargetsPlain(c.verification, c.acs);
    PlainNotSuspect(Join(TargetLines(c.verification), "\n"));
    BudgetPlain(c.budget);
    PlainNotSuspect(Join(RuleLines(c.budget), "\n"));
  }

  lemma StructuredIsNotSuspect(c: Contract, env: Env, i: nat)
    requires WellFormed(c, env) && Structured(i)
    ensures !Suspect(RequiredParts(c)[i].value)
  {
    hide Suspect, WellFormed, Join, DependenciesText, LocksText, CriterionLines, TargetLines, RuleLines, GOAL,
         CURRENT, REQUIRED, CRITERIA, OUT_OF_SCOPE, AFFECTED, RISK, RESOURCE, DEPENDENCIES, LOCKS, VERIFICATION,
         BUDGET, DOCS;
    ListsNotSuspect(c, env);
  }

  lemma DomainsNotSuspect(ds: seq<string>)
    requires ValidDomains(ds)
    ensures !Suspect(Join(ds, ", "))
  {
    hide Plain, Suspect, ValidDomains, Trimmed, Prose;
    if ds == [] {
      NothingIsNotSuspect();
    } else {
      DomainsPlain(ds);
      PlainIsProse(Join(ds, ", "));
    }
  }

  /** If the contract reads back, so does every text in it that could have been misread. */
  lemma SuspectIsKept(c: Contract, env: Env, d: seq<Section>, i: nat)
    requires WellFormed(c, env) && SameProse(c, d) && c.extra == Extras(d) && Distinct(d)
    requires forall s :: s in d ==> Shaped(s)
    requires i < |Sections(c)| && Suspect(Sections(c)[i].value)
    ensures Lookup(d, Sections(c)[i].key) == Some(Shown(Sections(c)[i].value))
  {
    hide Suspect, Prose, ValidCriteria, ValidDomains, ValidDependencies, ValidLocks, ValidBudget, ValidTargets,
         ValidExtras, Evidence, LostAllowed, Trimmed, TextOf, Shown, Join, CriteriaIn, DomainsIn, DependenciesIn,
         LocksIn, TargetsIn, BudgetIn, ChoiceOf, Complete, Extras, Lookup, Strip, ChangesBehavior, Authorized, RISKS,
         RESOURCE_CLASSES, AuthorizationText, Shaped, Distinct, DependenciesText, LocksText;
    if i < 13 {
      if Structured(i) {
        StructuredIsNotSuspect(c, env, i);
      } else {
        ProseIsKept(c, d, i);
      }
    } else {
      var x := c.extra[i - 13];
      assert Sections(c)[i] == x && x in Extras(d);
      ExtraText(d, x);
      NothingIsNotSuspect();
      TextKept(d, x.key, x.value);
    }
  }

  /** The prose of the contract is what its sections say. */
  predicate SameProse(c: Contract, d: seq<Section>) {
    && c.goal == TextOf(d, GOAL) != "" && c.current == TextOf(d, CURRENT) != ""
    && c.required == TextOf(d, REQUIRED) != ""
    && c.outOfScope == TextOf(d, OUT_OF_SCOPE) != "" && c.docs == TextOf(d, DOCS) != ""
  }

  lemma ProseIsKept(c: Contract, d: seq<Section>, i: nat)
    requires SameProse(c, d) && (forall s :: s in d ==> Shaped(s)) && i < 13 && !Structured(i)
    ensures Lookup(d, Sections(c)[i].key) == Some(Shown(Sections(c)[i].value))
  {
    hide Prose, TextOf, Shown, Join, CriteriaIn, DomainsIn, DependenciesIn, LocksIn, TargetsIn, BudgetIn, ChoiceOf,
         Complete, Extras, Lookup, Strip, ChangesBehavior, Authorized, RISKS, RESOURCE_CLASSES, Shaped,
         DependenciesText, LocksText;
    TextKept(d, GOAL, c.goal);
    TextKept(d, CURRENT, c.current);
    TextKept(d, REQUIRED, c.required);
    TextKept(d, OUT_OF_SCOPE, c.outOfScope);
    TextKept(d, DOCS, c.docs);
  }

  lemma LabelsSurvive(c: Contract)
    requires c.extra == Extras(SectionsOf(RenderBody(c)))
    ensures forall i :: 0 <= i < |c.extra| ==> c.extra[i].key != ""
  {
    hide Extras, SectionsOf, RenderBody, Shaped, Distinct, ExtraOk;
    var d := SectionsOf(RenderBody(c));
    SectionsAreShaped(RenderBody(c));
    ExtrasAreOk(d);
    NamedInPrint(c);
    forall i | 0 <= i < |c.extra| ensures c.extra[i].key != "" {
      assert c.extra[i] == Extras(d)[i] && HasKey(d, c.extra[i].key);
      var k :| 0 <= k < |d| && d[k].key == c.extra[i].key;
      assert d[k] in d;
    }
  }

  lemma NamedInPrint(c: Contract)
    ensures forall s :: s in SectionsOf(RenderBody(c)) ==> s.key != ""
  {
    hide PrintAll, SectionsOf;
    PartLabels(c);
    PrintedLabels(Sections(c));
  }

  lemma GivenTexts(d: seq<Section>, c: Contract, env: Env)
    ensures Gives(d, c.number, c.title, c, env) ==> SameProse(c, d) && c.extra == Extras(d)
  {
    hide TextOf, Extras, CriteriaIn, DomainsIn, DependenciesIn, LocksIn, TargetsIn, BudgetIn, ChoiceOf, Complete,
         Strip, Authorized, ChangesBehavior;
  }

  /** A contract that reads back was faithful. */
  lemma SurvivorsAreFaithful(c: Contract, env: Env)
    requires WellFormed(c, env)
    ensures Gives(SectionsOf(RenderBody(c)), c.number, c.title, c, env) ==> Faithful(c)
  {
    hide WellFormed, Gives, Sections, PrintAll, SectionsOf, Sound, Suspect, Shown, Printable, Paper, Lookup, NoTicks,
         Shaped, Distinct, ValidExtras, SameProse, Extras, Texts13, Complete;
    var d := SectionsOf(RenderBody(c));
    if !Gives(d, c.number, c.title, c, env) { return; }
    GivenTexts(d, c, env);
    LabelsSurvive(c);
    ExtrasOfWellFormed(c, env);
    SectionsPrintable(c);
    SectionsAreShaped(RenderBody(c));
    if !Sound(Sections(c)) {
      UnsoundLoses(Sections(c));
      var i :| 0 <= i < |Sections(c)| && Suspect(Sections(c)[i].value)
        && Lookup(d, Sections(c)[i].key) != Some(Shown(Sections(c)[i].value));
      SuspectIsKept(c, env, d, i);
    } else {
      SoundSurvives(Sections(c));
      PaperIsOrderly(c);
      PageGives(c, env, Paper(Sections(c)));
    }
  }

  lemma ExtrasOfWellFormed(c: Contract, env: Env)
    requires WellFormed(c, env)
    ensures ValidExtras(c.extra)
  {
  }

  lemma FaithfulSurvives(c: Contract, env: Env)
    requires WellFormed(c, env) && Faithful(c)
    ensures Gives(SectionsOf(RenderBody(c)), c.number, c.title, c, env)
  {
    hide WellFormed, Gives, Sections, PrintAll, SectionsOf, Sound, Printable, Paper, NoTicks, ValidExtras, Survive,
         Texts13, Complete, Extras;
    ExtrasOfWellFormed(c, env);
    SectionsPrintable(c);
    SoundSurvives(Sections(c));
    PaperIsOrderly(c);
    PageGives(c, env, Paper(Sections(c)));
  }

  /** For every contract that parsing accepts: printing it and parsing the print with the same number and title gives
      the same contract back, exactly when the contract is faithful. */
  lemma RoundTripExactly(number: int, title: string, body: string, c: Contract, env: Env)
    requires Parse(number, title, body, env) == Some(c)
    ensures Parse(number, c.title, RenderBody(c), env) == Some(c) <==> Faithful(c)
  {
    hide FromSections, WellFormed, Gives, SectionsOf, RenderBody, Faithful, Strip;
    ParsedIsWellFormed(number, title, body, c, env);
    var d := SectionsOf(RenderBody(c));
    ParsesMeansGives(d, number, c.title, c, env);
    if Faithful(c) { FaithfulSurvives(c, env); } else { SurvivorsAreFaithful(c, env); }
  }

  /** What planning and narrowing take for granted about contracts holds of every parsed one: exactly one rule for each
      budget key, and no domain and no lock named twice. */
  lemma ParsedContractsAreOrderly(number: int, title: string, body: string, c: Contract, env: Env)
    requires Parse(number, title, body, env) == Some(c)
    ensures OneRulePerKey(c.budget)
    ensures forall key :: key in BUDGET_KEYS ==> exists i :: 0 <= i < |c.budget| && c.budget[i].key == key
    ensures forall i, j :: 0 <= i < j < |c.domains| ==> c.domains[i] != c.domains[j]
    ensures forall i, j :: 0 <= i < j < |c.locks| ==> c.locks[i].name != c.locks[j].name
  {
    hide Parse, BUDGET_KEYS, Prose, ValidCriteria, ValidDependencies, ValidTargets, Evidence, LostAllowed,
         ValidExtras, Authorized, Trimmed, ValidLimit, ValidLock;
    ParsedIsWellFormed(number, title, body, c, env);
    KeysAreDistinct();
    forall key | key in BUDGET_KEYS ensures exists i :: 0 <= i < |c.budget| && c.budget[i].key == key {
      var i :| 0 <= i < |BUDGET_KEYS| && BUDGET_KEYS[i] == key;
      assert c.budget[i].key == key;
    }
  }
}
