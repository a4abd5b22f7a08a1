/** Each way of being lost in print, in contracts that are admitted from a whole Issue body. */
module ContractSamples {
  import opened Prelude
  import opened Text
  import opened StateStore
  import opened Budget
  import opened IssueSections
  import opened SectionRoundTrip
  import opened ContractFields
  import opened ContractRules
  import opened ContractBudget
  import opened IssueContract
  import opened ContractShape
  import opened ContractPrint
  import opened ContractRoundTrip
  import opened ContractWriting

  /** Admitted from the body written for it, and not what its own print parses to. */
  predicate Lost(c: Contract, env: Env) {
    Parse(c.number, c.title, Written(c), env) == Some(c) && Parse(c.number, c.title, RenderBody(c), env) != Some(c)
  }

  function WithoutDomains(c: Contract): Contract {
    c.(domains := [])
  }

  function WithTick(c: Contract): Contract
    requires c.acs != []
  {
    c.(verification := c.verification + [Target(c.acs[0].id, "cmd", "scripts/`")])
  }

  function WithGoal(c: Contract, goal: string): Contract {
    c.(goal := goal)
  }

  function WithoutLabel(c: Contract): Contract {
    c.(extra := c.extra + [Section("", "")])
  }

  const HEADING := "### Goal"
  const WINDOWS := "one\r\ntwo"

  predicate AllNamed(c: Contract) {
    forall i :: 0 <= i < |c.extra| ==> c.extra[i].key != ""
  }

  // --- the variants stay well formed and writable ---------------------------------------------------

  /** Contracts that differ in one text are writable alike. */
  lemma WritableBut(c: Contract, v: Contract, k: nat)
    requires Writable(c) && v.extra == c.extra && |Sections(v)| == |Sections(c)| > k
    requires forall i :: 0 <= i < |Sections(c)| && i != k ==> Sections(v)[i] == Sections(c)[i]
    requires InnerCalm(Shown(Sections(v)[k].value))
    ensures Writable(v)
  {
    hide Sections, InnerCalm, Shown;
  }

  lemma PartsButDomains(c: Contract)
    ensures var v := WithoutDomains(c);
            && |Sections(v)| == |Sections(c)| > 5 && Sections(v)[5].value == ""
            && forall i :: 0 <= i < |Sections(c)| && i != 5 ==> Sections(v)[i] == Sections(c)[i]
  {
    hide DependenciesText, LocksText, CriterionLines, TargetLines, RuleLines;
  }

  lemma FewerDomains(c: Contract, env: Env)
    requires WellFormed(c, env) && Writable(c)
    ensures var v := WithoutDomains(c); WellFormed(v, env) && Writable(v) && !Faithful(v)
  {
    hide Sections, Writable, Sound;
    PartsButDomains(c);
    NothingIsCalm();
    WritableBut(c, WithoutDomains(c), 5);
    FewerDomainsShape(c, env);
  }

  lemma FewerDomainsShape(c: Contract, env: Env)
    requires WellFormed(c, env)
    ensures WellFormed(WithoutDomains(c), env)
  {
    hide Prose, ValidCriteria, ValidDependencies, ValidLocks, ValidBudget, ValidTargets, ValidExtras, LostAllowed,
         Trimmed, RISKS, RESOURCE_CLASSES, Authorized, AuthorizationText, DOMAINS, Covers, Deterministic;
    assert !ChangesBehavior([], env);
  }

  lemma NothingIsCalm()
    ensures InnerCalm(Shown(""))
  {
    hide SplitAt, Opens;
    NoResponseIsALine();
    NothingIsNotSuspect();
  }

  lemma TickTarget(id: string)
    requires CriterionId(id)
    ensures var t := Target(id, "cmd", "scripts/`"); ValidTarget(t) && Deterministic(t)
  {
  }

  lemma PartsButPlan(c: Contract)
    requires c.acs != []
    ensures var v := WithTick(c);
            && |Sections(v)| == |Sections(c)| > 10 && Sections(v)[10].value == Join(TargetLines(v.verification), "\n")
            && forall i :: 0 <= i < |Sections(c)| && i != 10 ==> Sections(v)[i] == Sections(c)[i]
  {
    hide DependenciesText, LocksText, CriterionLines, TargetLines, RuleLines, Join;
  }

  lemma OneTarget(c: Contract, env: Env)
    requires WellFormed(c, env) && Writable(c)
    ensures c.acs != []
    ensures var v := WithTick(c); WellFormed(v, env) && Writable(v) && !Faithful(v)
  {
    hide Sections, Writable, Sound, Plain, WellFormed, Shown, InnerCalm, TargetLines, Join, ValidTargets;
    OneTargetShape(c, env);
    var v := WithTick(c);
    PartsButPlan(c);
    TargetsPlain(v.verification, c.acs);
    PlainIsInnerCalm(Join(TargetLines(v.verification), "\n"));
    PlainIsProse(Join(TargetLines(v.verification), "\n"));
    WritableBut(c, v, 10);
    assert v.verification[|c.verification|] == Target(c.acs[0].id, "cmd", "scripts/`");
  }

  lemma OneTargetShape(c: Contract, env: Env)
    requires WellFormed(c, env)
    ensures c.acs != [] && WellFormed(WithTick(c), env) && ValidTargets(WithTick(c).verification, c.acs)
  {
    hide Prose, ValidDomains, ValidDependencies, ValidLocks, ValidBudget, ValidTarget, ValidExtras, LostAllowed,
         Trimmed, RISKS, RESOURCE_CLASSES, Authorized, AuthorizationText, Deterministic, CriterionId, ChangesBehavior,
         Evidence;
    var t := Target(c.acs[0].id, "cmd", "scripts/`");
    TickTarget(c.acs[0].id);
    MoreEvidence(c.verification, t, c.acs, ChangesBehavior(c.domains, env));
  }

  lemma MoreEvidence(ts: seq<Target>, t: Target, acs: seq<Criterion>, behaviorChanging: bool)
    requires Evidence(ts, acs, behaviorChanging) && Deterministic(t)
    ensures Evidence(ts + [t], acs, behaviorChanging)
  {
    hide Deterministic;
    forall a | a in acs ensures Covers(ts + [t], a.id, false) { assert Covers(ts, a.id, false); }
    forall a | a in acs && behaviorChanging ensures Covers(ts + [t], a.id, true) { assert Covers(ts, a.id, true); }
    assert t in ts + [t];
  }

  lemma PartsButGoal(c: Contract, goal: string)
    ensures var v := WithGoal(c, goal);
            && |Sections(v)| == |Sections(c)| > 0 && Sections(v)[0] == Section(GOAL, goal)
            && forall i :: 0 <= i < |Sections(c)| && i != 0 ==> Sections(v)[i] == Sections(c)[i]
  {
    hide DependenciesText, LocksText, CriterionLines, TargetLines, RuleLines, Join;
  }

  lemma OtherGoal(c: Contract, env: Env, goal: string)
    requires WellFormed(c, env) && Writable(c) && Prose(goal) && goal != "" && InnerCalm(goal)
    ensures var v := WithGoal(c, goal);
        WellFormed(v, env) && Writable(v) && Sections(v)[0] == Section(GOAL, goal) && Shown(goal) == goal
  {
    hide Sections, Writable, Prose, WellFormed, Shown, InnerCalm;
    CleanProse(goal);
    PartsButGoal(c, goal);
    WritableBut(c, WithGoal(c, goal), 0);
    OtherGoalShape(c, env, goal);
  }

  lemma OtherGoalShape(c: Contract, env: Env, goal: string)
    requires WellFormed(c, env) && Prose(goal) && goal != ""
    ensures WellFormed(WithGoal(c, goal), env)
  {
    hide Prose, ValidCriteria, ValidDomains, ValidDependencies, ValidLocks, ValidBudget, ValidTargets, ValidExtras,
         LostAllowed, Trimmed, RISKS, RESOURCE_CLASSES, Authorized, AuthorizationText, Evidence, ChangesBehavior;
    var old_ := [c.goal, c.current, c.required, c.outOfScope, c.docs];
    var new_ := [goal, c.current, c.required, c.outOfScope, c.docs];
    forall s | s in new_ ensures Prose(s) && s != "" { if s != goal { assert s in old_; } }
  }

  lemma HeadingGoal()
    ensures Prose(HEADING) && InnerCalm(HEADING) && !Calm(HEADING)
  {
    hide SplitAt, Space;
    NoSpaceAround();
    assert Uncut(HEADING, AtNewlines) by { OneRow(); }
    SplitUncut(HEADING, AtNewlines);
    assert IssueSections.Rows(HEADING) == [HEADING];
    assert Opens(IssueSections.Rows(HEADING)[0]);
  }

  lemma NoSpaceAround()
    ensures !Space('#') && !Space('l') && !Space('o') && Space(' ')
  {
  }

  lemma OneRow()
    ensures Uncut(HEADING, AtNewlines) && Uncut("one\r", AtNewlines) && Uncut("two", AtNewlines)
  {
  }

  lemma WindowsGoal()
    ensures Prose(WINDOWS) && InnerCalm(WINDOWS) && HasCrlf(WINDOWS)
  {
    hide Opens, SplitAt, Space;
    NoSpaceAround();
    OneRow();
    CommaCuts();
    assert WINDOWS == "one\r" + ['\n'] + "two";
    SplitConcat("one\r", '\n', "two", AtNewlines);
    SplitUncut("one\r", AtNewlines);
    SplitUncut("two", AtNewlines);
    assert IssueSections.Rows(WINDOWS) == ["one\r", "two"];
    assert !Opens("two") by { OpensStarts("two"); PrefixAt("two", "###", 0); }
    assert WINDOWS[3] == '\r' && WINDOWS[4] == '\n';
  }

  lemma UnlabelledExtra(c: Contract, env: Env)
    requires WellFormed(c, env) && Writable(c) && AllNamed(c)
    ensures var v := WithoutLabel(c); WellFormed(v, env) && Writable(v) && !Faithful(v)
  {
    hide Prose, ValidCriteria, ValidDomains, ValidDependencies, ValidLocks, ValidBudget, ValidTargets, LostAllowed,
         Trimmed, InnerCalm, Shown, RISKS, RESOURCE_CLASSES, Authorized, AuthorizationText, Evidence, ChangesBehavior,
         REQUIRED_SECTIONS, AUTHORIZATION;
    var v := WithoutLabel(c);
    EmptyExtra();
    SameAuthorization(c.extra);
    NothingIsCalm();
    forall i | 0 <= i < |Sections(v)| ensures InnerCalm(Shown(Sections(v)[i].value)) {
      if i < |Sections(c)| { assert Sections(v)[i] == Sections(c)[i]; }
      else { assert Sections(v)[i] == Section("", ""); }
    }
    assert v.extra[|c.extra|].key == "";
  }

  lemma EmptyExtra()
    ensures ExtraOk(Section("", "")) && "" !in REQUIRED_SECTIONS
  {
    hide REQUIRED_SECTIONS;
    UnnamedExtra();
    RequiredLabels();
    forall i | 0 <= i < 13 ensures REQUIRED_SECTIONS[i] != "" { LabelIsNamed(i); }
  }

  lemma {:induction false} SameAuthorization(extra: seq<Section>)
    ensures AuthorizationText(extra + [Section("", "")]) == AuthorizationText(extra)
  {
    if extra != [] {
      assert (extra + [Section("", "")])[1..] == extra[1..] + [Section("", "")];
      SameAuthorization(extra[1..]);
    } else {
      assert extra + [Section("", "")] == [Section("", "")] && [Section("", "")][1..] == [];
    }
  }

  // --- what is lost ---------------------------------------------------------------------------------

  /** Take any contract that can be written. Without a domain, with one more target that ends in a backtick, with a
      goal that is a heading row or holds a Windows line end, or with one more section that has no label, it is still
      admitted from a whole body, and it is lost. */
  lemma EveryKindIsLost(c: Contract, env: Env)
    requires WellFormed(c, env) && Writable(c)
    ensures Lost(WithoutDomains(c), env) && c.acs != [] && Lost(WithTick(c), env)
    ensures Lost(WithGoal(c, HEADING), env) && Lost(WithGoal(c, WINDOWS), env)
    ensures AllNamed(c) ==> Lost(WithoutLabel(c), env)
  {
    hide WellFormed, Writable, Faithful, Parse, Written, RenderBody, Prose, InnerCalm;
    FewerDomains(c, env);
    UnfaithfulIsLost(WithoutDomains(c), env);
    OneTargetShape(c, env);
    OneTarget(c, env);
    UnfaithfulIsLost(WithTick(c), env);
    HeadingGoal();
    OtherGoal(c, env, HEADING);
    HeadingIsUnfaithful(WithGoal(c, HEADING));
    UnfaithfulIsLost(WithGoal(c, HEADING), env);
    WindowsGoal();
    OtherGoal(c, env, WINDOWS);
    CrlfIsUnfaithful(WithGoal(c, WINDOWS));
    UnfaithfulIsLost(WithGoal(c, WINDOWS), env);
    if AllNamed(c) {
      UnlabelledExtra(c, env);
      UnfaithfulIsLost(WithoutLabel(c), env);
    }
  }

  lemma HeadingIsUnfaithful(c: Contract)
    requires c.goal == HEADING && Shown(HEADING) == HEADING && !Calm(HEADING)
    ensures !Faithful(c)
  {
    hide Shown, Calm, CalmAtEnd, HasCrlf;
    PartsButGoal(c, c.goal);
    assert |Sections(c)| >= 13;
    assert !Quiet(Paper(Sections(c)), 0);
  }

  lemma CrlfIsUnfaithful(c: Contract)
    requires c.goal == WINDOWS && Shown(WINDOWS) == WINDOWS && HasCrlf(WINDOWS)
    ensures !Faithful(c)
  {
    hide Shown, HasCrlf, Quiet;
    PartsButGoal(c, c.goal);
  }

  // --- a contract to take ---------------------------------------------------------------------------

  const SAMPLE :=
      Contract(1, "Sample", "More", "Less", "Enough", [Criterion("AC-1", "It is enough")], "Rest", ["qa"], "LOW",
          "LIGHT", [], [], [Target("AC-1", "cmd", "scripts/check")], Filled(map[], BUDGET_KEYS), "Some", [])

  lemma SampleId()
    ensures CriterionId("AC-1")
  {
    assert "AC-1"[3..] == "1";
  }

  lemma SampleCriterion()
    ensures Trimmed("It is enough") && Uncut("It is enough", AtBreaks)
  {
  }

  lemma SampleTarget()
    ensures var t := Target("AC-1", "cmd", "scripts/check"); CriterionId("AC-1") ==> ValidTarget(t)
  {
  }

  lemma SampleLists()
    ensures ValidCriteria(SAMPLE.acs) && ValidTargets(SAMPLE.verification, SAMPLE.acs)
  {
    hide CriterionId, Trimmed, Uncut, ValidTarget;
    SampleId();
    SampleCriterion();
    SampleTarget();
    assert HasId(SAMPLE.acs, "AC-1") by { assert SAMPLE.acs[0].id == "AC-1"; }
  }

  lemma SampleDomains()
    ensures ValidDomains(SAMPLE.domains) && SAMPLE.risk in RISKS && SAMPLE.resource in RESOURCE_CLASSES
  {
    assert DOMAINS[6] == "qa" && RISKS[0] == "LOW" && RESOURCE_CLASSES[0] == "LIGHT";
  }

  predicate Letters(s: string) {
    s != "" && forall i :: 0 <= i < |s| ==> 'a' <= s[i] <= 'z' || 'A' <= s[i] <= 'Z'
  }

  lemma LettersAreProse(s: string)
    requires Letters(s)
    ensures Prose(s) && InnerCalm(s) && Shown(s) == s
  {
    hide Opens, SplitAt;
    LettersAreNoSpace(s[0]);
    LettersAreNoSpace(Last(s));
    assert s != NO_RESPONSE by { assert NO_RESPONSE[0] == '_'; }
    assert Uncut(s, AtNewlines);
    SplitUncut(s, AtNewlines);
    StripTrimmed(s);
  }

  lemma SampleBudget()
    ensures ValidBudget(SAMPLE.budget) && SAMPLE.budget != [] && LostAllowed(SAMPLE.budget[0].limit, "LOW")
  {
    SixKeys();
    assert BUDGET_KEYS[0] == "LOST";
    assert forall key :: !DefaultLimit(key).Tagged?;
  }

  lemma SampleEvidence(behaviorChanging: bool)
    ensures Evidence(SAMPLE.verification, SAMPLE.acs, behaviorChanging)
  {
    var t := SAMPLE.verification[0];
    assert t in SAMPLE.verification && t.ac == "AC-1" && Deterministic(t);
    assert forall a :: a in SAMPLE.acs ==> a == SAMPLE.acs[0];
    assert Covers(SAMPLE.verification, "AC-1", true) && Covers(SAMPLE.verification, "AC-1", false);
  }

  lemma SampleShape(env: Env)
    ensures WellFormed(SAMPLE, env)
  {
    hide Prose, ValidCriteria, ValidDomains, ValidDependencies, ValidLocks, ValidBudget, ValidTargets, ValidExtras,
         LostAllowed, Trimmed, RISKS, RESOURCE_CLASSES, Evidence, ChangesBehavior, InnerCalm, Shown;
    SampleLists();
    SampleDomains();
    SampleBudget();
    SampleEvidence(ChangesBehavior(SAMPLE.domains, env));
    NothingElse(env);
    LettersAreProse("More");
    LettersAreProse("Less");
    LettersAreProse("Enough");
    LettersAreProse("Rest");
    LettersAreProse("Some");
    TitleIsTrimmed();
  }

  lemma TitleIsTrimmed()
    ensures Trimmed("Sample")
  {
  }

  lemma NothingElse(env: Env)
    ensures ValidDependencies([], 1) && ValidLocks([], env.knownLocks) && ValidExtras([])
    ensures AuthorizationText([]) == "" && Authorized(1, "", env)
  {
  }

  lemma SampleIsWritable(env: Env)
    ensures Writable(SAMPLE) && AllNamed(SAMPLE)
  {
    hide Plain, InnerCalm, Shown, WellFormed, Suspect, Join, CriterionLines, DependenciesText, LocksText, TargetLines,
         RuleLines, Prose;
    SampleShape(env);
    LettersAreProse("More");
    LettersAreProse("Less");
    LettersAreProse("Enough");
    LettersAreProse("Rest");
    LettersAreProse("Some");
    var c := SAMPLE;
    forall i | 0 <= i < |Sections(c)| ensures InnerCalm(Shown(Sections(c)[i].value)) {
      if Structured(i) {
        StructuredIsNotSuspect(c, env, i);
        UnsuspectedIsCalm(Sections(c)[i].value);
      }
    }
  }

  lemma UnsuspectedIsCalm(text: string)
    requires !Suspect(text)
    ensures InnerCalm(Shown(text))
  {
    hide Opens, SplitAt, Shown, HasCrlf;
    UnifyShortens(Shown(text));
  }

  /** Five contracts, each admitted from a body of its own, none of them its print's contract: without a domain, with a
      target that ends in a backtick, with a heading row or a Windows line end in its goal, with a section that has no
      label. */
  lemma FiveBodies(env: Env)
    ensures Lost(WithoutDomains(SAMPLE), env) && Lost(WithTick(SAMPLE), env) && Lost(WithGoal(SAMPLE, HEADING), env)
    ensures Lost(WithGoal(SAMPLE, WINDOWS), env) && Lost(WithoutLabel(SAMPLE), env)
  {
    hide Lost, WellFormed, Writable;
    SampleShape(env);
    SampleIsWritable(env);
    EveryKindIsLost(SAMPLE, env);
  }
}
