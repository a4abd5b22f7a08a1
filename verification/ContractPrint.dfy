/** The printed page of a contract: its labels are distinct, and its structured fields cannot be misread as headings. */
module ContractPrint {
  import opened Prelude
  import opened Text
  import opened StateStore
  import opened Budget
  import opened IssueSections
  import opened SectionRoundTrip
  import opened ContractFields
  import opened ContractRules
  import opened ContractBudget
  import opened IssueContract
  import opened ContractShape

  // --- printed fields are harmless to the sections around them -----------------------------------

  ghost predicate Plain(text: string) {
    text != "" && Trimmed(text) && text != NO_RESPONSE && !Suspect(text)
  }

  ghost predicate PlainLine(line: string) {
    line != "" && Uncut(line, AtBreaks) && !Opens(line)
  }

  lemma LinesArePlain(lines: seq<string>)
    requires lines != [] && forall i :: 0 <= i < |lines| ==> lines[i] != "" && PlainLine(lines[i])
    requires !Space(lines[0][0]) && !Space(Last(Last(lines))) && lines[0][0] != '_'
    ensures Plain(Join(lines, "\n"))
  {
    hide Space, Break, Opens, SplitAt, Uncut, Join, Suspect;
    var text := Join(lines, "\n");
    JoinEnds(lines, "\n");
    forall i | 0 <= i < |lines| ensures Uncut(lines[i], AtNewlines) { BreaksCoverLineEnds(lines[i]); }
    CommaCuts();
    SplitJoined(lines, AtNewlines);
    NoReturns(lines);
    NotSuspect(text, lines);
    assert text[0] != NO_RESPONSE[0];
  }

  lemma NotSuspect(text: string, rows: seq<string>)
    requires '\r' !in text && Trimmed(text) && text != ""
    requires IssueSections.Rows(text) == rows && forall i :: 0 <= i < |rows| ==> !Opens(rows[i])
    ensures Shown(text) == text && !Suspect(text)
  {
    hide Space, Opens, SplitAt, Strip, Unify, HasCrlf, Trimmed;
    StripTrimmed(text);
    NoCrlfWithout(text);
    UnifyShortens(text);
  }

  lemma BreaksCoverLineEnds(s: string)
    requires Uncut(s, AtBreaks)
    ensures Uncut(s, AtNewlines) && '\r' !in s
  {
  }

  lemma {:induction false} NoReturns(lines: seq<string>)
    requires forall i :: 0 <= i < |lines| ==> Uncut(lines[i], AtBreaks)
    ensures '\r' !in Join(lines, "\n")
  {
    hide Uncut;
    if lines != [] {
      BreaksCoverLineEnds(Last(lines));
      NoReturns(DropLast(lines));
    }
  }

  lemma NoCrlfWithout(text: string)
    requires '\r' !in text
    ensures !HasCrlf(text)
  {
  }

  lemma OneLineIsPlain(line: string)
    requires PlainLine(line) && Trimmed(line) && line[0] != '_'
    ensures Plain(line)
  {
    hide PlainLine, Plain, Space;
    assert line != "" by { PlainLineIsInk(line); }
    assert Join([line], "\n") == line;
    LinesArePlain([line]);
  }

  lemma PlainLineIsInk(line: string)
    requires PlainLine(line)
    ensures line != ""
  {
  }

  lemma NothingIsNotSuspect()
    ensures !Suspect("") && Shown("") == NO_RESPONSE
  {
    hide Opens, Space, SplitAt, Unify, HasCrlf, Calm;
    NoResponseStands();
    NoResponseIsALine();
    assert Strip("") == "";
    NotSuspect(NO_RESPONSE, [NO_RESPONSE]);
  }

  lemma NoResponseIsALine()
    ensures '\r' !in NO_RESPONSE && !Opens(NO_RESPONSE) && IssueSections.Rows(NO_RESPONSE) == [NO_RESPONSE]
  {
    hide SplitAt, Space;
    SplitUncut(NO_RESPONSE, AtNewlines);
    PrefixAt(NO_RESPONSE, "###", 0);
  }

  lemma DashLine(rest: string)
    requires Uncut(rest, AtBreaks)
    ensures PlainLine("- " + rest)
  {
    hide Cuts, Break;
    DashUnbroken();
    var line := "- " + rest;
    assert Uncut(line, AtBreaks) by { UncutConcat("- ", rest, AtBreaks); }
    PrefixAt(line, "###", 0);
  }

  lemma DashUnbroken()
    ensures Uncut("- ", AtBreaks) && Uncut(": ", AtBreaks) && Uncut(" -> ", AtBreaks) && !Space('-') && !Break('A')
    ensures !Break('C')
  {
  }

  lemma IdUnbroken(id: string)
    requires CriterionId(id)
    ensures Uncut(id, AtBreaks)
  {
    assert forall i :: 3 <= i < |id| ==> id[i] == id[3..][i - 3];
  }

  lemma CriteriaPlain(acs: seq<Criterion>)
    requires ValidCriteria(acs) && acs != []
    ensures Plain(Join(CriterionLines(acs), "\n"))
  {
    hide Space, Break, Cuts, Uncut, PlainLine, CriterionId;
    DashUnbroken();
    forall i | 0 <= i < |acs|
      ensures CriterionLine(acs[i]) != "" && PlainLine(CriterionLine(acs[i])) && CriterionLine(acs[i])[0] == '-'
      ensures Last(CriterionLine(acs[i])) == Last(acs[i].text)
    {
      var c := acs[i];
      IdUnbroken(c.id);
      UncutConcat(c.id, ": ", AtBreaks);
      UncutConcat(c.id + ": ", c.text, AtBreaks);
      DashLine(c.id + ": " + c.text);
      assert "- " + (c.id + ": " + c.text) == CriterionLine(c);
    }
    LinesArePlain(CriterionLines(acs));
  }

  lemma TargetsPlain(ts: seq<Target>, acs: seq<Criterion>)
    requires ValidTargets(ts, acs) && ts != []
    ensures Plain(Join(TargetLines(ts), "\n"))
  {
    hide Space, Break, Cuts, Uncut, PlainLine, CriterionId, HasId, KINDS, SpecHead, TargetOk;
    DashUnbroken();
    forall i | 0 <= i < |ts|
      ensures TargetLine(ts[i]) != "" && PlainLine(TargetLine(ts[i])) && TargetLine(ts[i])[0] == '-'
      ensures !Space(Last(TargetLine(ts[i])))
    {
      var t := ts[i];
      IdUnbroken(t.ac);
      SpecInk(t);
      var spec := SpecHead(t.kind) + t.target;
      UncutConcat(t.ac, " -> ", AtBreaks);
      UncutConcat(t.ac + " -> ", spec, AtBreaks);
      DashLine(t.ac + " -> " + spec);
      assert "- " + (t.ac + " -> " + spec) == TargetLine(t) && Last(TargetLine(t)) == Last(spec);
    }
    LinesArePlain(TargetLines(ts));
  }

  lemma BudgetPlain(rules: seq<Rule>)
    requires ValidBudget(rules) && rules != []
    ensures Plain(Join(RuleLines(rules), "\n"))
  {
    hide Space, Break, Cuts, Uncut, ValidLimit, RuleLine, BUDGET_KEYS;
    forall i | 0 <= i < |rules|
      ensures RuleLine(rules[i]) != "" && PlainLine(RuleLine(rules[i])) && RuleLine(rules[i])[0] != '_'
      ensures !Space(RuleLine(rules[i])[0]) && !Space(Last(RuleLine(rules[i])))
    {
      RuleLineInk(rules[i]);
      KeyStarts(rules[i].key);
      PrefixAt(RuleLine(rules[i]), "###", 0);
    }
    LinesArePlain(RuleLines(rules));
  }

  lemma KeyStarts(key: string)
    requires key in BUDGET_KEYS
    ensures key != "" && !Space(key[0]) && key[0] != '_' && key[0] != '#'
  {
  }

  lemma {:induction false} JoinUncut(parts: seq<string>)
    requires forall i :: 0 <= i < |parts| ==> Uncut(parts[i], AtBreaks)
    ensures Uncut(Join(parts, ", "), AtBreaks)
  {
    hide Uncut, Cuts, Break;
    CommaUnbroken();
    if |parts| > 1 {
      JoinUncut(DropLast(parts));
      UncutConcat(Join(DropLast(parts), ", "), ", ", AtBreaks);
      UncutConcat(Join(DropLast(parts), ", ") + ", ", Last(parts), AtBreaks);
    }
  }

  lemma CommaUnbroken()
    ensures Uncut(", ", AtBreaks) && Uncut("", AtBreaks)
  {
  }

  /** A comma-separated field on one line. */
  lemma ListIsPlain(parts: seq<string>)
    requires parts != [] && forall i :: 0 <= i < |parts| ==>
        parts[i] != "" && Trimmed(parts[i]) && Uncut(parts[i], AtBreaks)
    requires parts[0][0] != '_' && !(StartsWith(Join(parts, ", "), "###"))
    ensures Plain(Join(parts, ", "))
  {
    hide Uncut, Cuts, Break, Space, Plain;
    JoinEnds(parts, ", ");
    JoinUncut(parts);
    OneLineIsPlain(Join(parts, ", "));
  }

  lemma DomainsPlain(ds: seq<string>)
    requires ValidDomains(ds) && ds != []
    ensures Plain(Join(ds, ", "))
  {
    hide Uncut, Cuts, Break, Space, Plain, DOMAINS, Trimmed;
    forall i | 0 <= i < |ds| ensures ds[i] != "" && Trimmed(ds[i]) && Uncut(ds[i], AtBreaks) && 'a' <= ds[i][0] <= 'z' {
      DomainsAreWords(ds[i]);
      LettersAreInk(ds[i]);
    }
    JoinEnds(ds, ", ");
    PrefixAt(Join(ds, ", "), "###", 0);
    ListIsPlain(ds);
  }

  lemma ChoicePlain(v: string)
    requires Capitals(v)
    ensures Plain(v)
  {
    hide Uncut, Cuts, Break, Space;
    CapitalsAreInk(v);
    PrefixAt(v, "###", 0);
    OneLineIsPlain(v);
  }

  lemma NonePlain()
    ensures Plain("none")
  {
    hide Plain, Opens;
    NoneIsInk();
    PrefixAt("none", "###", 0);
    assert !Opens("none") by { OpensStarts("none"); }
    OneLineIsPlain("none");
  }

  lemma NoneIsInk()
    ensures Uncut("none", AtBreaks) && Trimmed("none")
  {
  }

  lemma OpensStarts(row: string)
    ensures Opens(row) ==> StartsWith(row, "###")
  {
  }

  lemma DependenciesPlain(deps: seq<nat>)
    ensures Plain(DependenciesText(deps))
  {
    hide Uncut, Cuts, Break, Space, Plain, Decimal, Trimmed, Digit;
    if deps == [] {
      NonePlain();
    } else {
      forall i | 0 <= i < |deps|
        ensures Trimmed(Tokens(deps)[i]) && Uncut(Tokens(deps)[i], AtBreaks)
      {
        TokenIsUncut(deps[i], AtBreaks);
      }
      JoinStart(Tokens(deps), ", ");
      DigitIsNoHash(Decimal(deps[0]));
      PrefixAt(Join(Tokens(deps), ", "), "###", 1);
      ListIsPlain(Tokens(deps));
    }
  }

  lemma DigitIsNoHash(d: string)
    requires AllDigits(d)
    ensures d != "" && d[0] != '#'
  {
  }

  lemma {:induction false} JoinStart(parts: seq<string>, glue: string)
    requires parts != []
    ensures parts[0] <= Join(parts, glue)
  {
    if |parts| > 1 { JoinStart(DropLast(parts), glue); }
  }

  lemma LocksPlain(locks: seq<LockReq>, known: Option<set<string>>)
    requires ValidLocks(locks, known)
    ensures Plain(LocksText(locks))
  {
    hide Uncut, Cuts, Break, Space, Plain, Trimmed, LockText, LockName;
    if locks == [] {
      NonePlain();
    } else {
      var texts := LockTexts(locks);
      forall i | 0 <= i < |locks|
        ensures texts[i] != "" && Trimmed(texts[i]) && Uncut(texts[i], AtBreaks)
      {
        LockTextInk(locks[i]);
      }
      LockTextInk(locks[0]);
      LockNameStarts(locks[0].name);
      JoinEnds(texts, ", ");
      PrefixAt(Join(texts, ", "), "###", 0);
      ListIsPlain(texts);
    }
  }

  lemma LockNameStarts(name: string)
    requires LockName(name)
    ensures name != "" && name[0] != '_' && name[0] != '#'
  {
  }

  // --- the printed sections ----------------------------------------------------------------------

  lemma RequiredLabels()
    ensures |REQUIRED_SECTIONS| == 13 && forall i, j :: 0 <= i < j < 13 ==> REQUIRED_SECTIONS[i] != REQUIRED_SECTIONS[j]
  {
    assert forall i, j :: 0 <= i < j < 13 ==>
        |REQUIRED_SECTIONS[i]| != |REQUIRED_SECTIONS[j]| || REQUIRED_SECTIONS[i][2] != REQUIRED_SECTIONS[j][2];
  }

  predicate Words(s: string) {
    && s != "" && 'A' <= s[0] <= 'Z' && 'a' <= Last(s) <= 'z'
    && forall i :: 0 <= i < |s| ==> s[i] == ' ' || 'A' <= s[i] <= 'Z' || 'a' <= s[i] <= 'z'
  }

  lemma ProseLabelsAreWords()
    ensures Words(GOAL) && Words(CURRENT) && Words(REQUIRED) && Words(OUT_OF_SCOPE)
  {
  }

  lemma ChoiceLabelsAreWords()
    ensures Words(AFFECTED) && Words(RISK) && Words(RESOURCE) && Words(DEPENDENCIES) && Words(LOCKS)
  {
  }

  lemma PlanLabelsAreWords()
    ensures Words(CRITERIA) && Words(VERIFICATION) && Words(BUDGET)
  {
  }

  lemma DocsLabelIsWords()
    ensures Words(DOCS)
  {
  }

  lemma LabelLetters(name: string)
    requires name in REQUIRED_SECTIONS
    ensures name != "" && 'A' <= name[0] <= 'Z' && 'a' <= Last(name) <= 'z' && '\n' !in name
  {
    hide GOAL, CURRENT, REQUIRED, CRITERIA, OUT_OF_SCOPE, AFFECTED, RISK, RESOURCE, DEPENDENCIES, LOCKS, VERIFICATION,
         BUDGET, DOCS;
    ProseLabelsAreWords();
    ChoiceLabelsAreWords();
    PlanLabelsAreWords();
    DocsLabelIsWords();
    assert Words(name);
  }

  lemma LettersAreNoSpace(c: char)
    requires 'A' <= c <= 'Z' || 'a' <= c <= 'z'
    ensures !Space(c)
  {
  }

  lemma LabelsAreTitles(name: string)
    requires name in REQUIRED_SECTIONS
    ensures Titled(name)
  {
    hide Space, REQUIRED_SECTIONS;
    LabelLetters(name);
    LettersAreNoSpace(name[0]);
    LettersAreNoSpace(Last(name));
  }

  lemma PartLabels(c: Contract)
    ensures |RequiredParts(c)| == 13 && forall i :: 0 <= i < 13 ==> RequiredParts(c)[i].key == REQUIRED_SECTIONS[i]
  {
  }

  lemma SectionsDistinct(c: Contract)
    requires ValidExtras(c.extra)
    ensures Distinct(Sections(c)) && Distinct(Paper(Sections(c)))
  {
    hide RequiredParts, REQUIRED_SECTIONS, Prose, Trimmed, Shown;
    RequiredLabels();
    PartLabels(c);
  }

  lemma SectionsPrintable(c: Contract)
    requires ValidExtras(c.extra) && forall i :: 0 <= i < |c.extra| ==> c.extra[i].key != ""
    ensures Printable(Sections(c))
  {
    hide RequiredParts, REQUIRED_SECTIONS, Prose, Trimmed, Titled, Distinct;
    SectionsDistinct(c);
    PartLabels(c);
    RequiredLabels();
    forall i | 0 <= i < |Sections(c)| ensures Titled(Sections(c)[i].key) {
      if i < 13 { LabelsAreTitles(REQUIRED_SECTIONS[i]); } else { ExtraTitled(c.extra[i - 13]); }
    }
  }

  lemma ExtraTitled(x: Section)
    requires ExtraOk(x) && x.key != ""
    ensures Titled(x.key)
  {
  }

  /** What a reader of the printed page finds under its i-th label. */
  lemma TextAt(c: Contract, i: nat)
    requires ValidExtras(c.extra) && i < |Sections(c)|
    ensures TextOf(Paper(Sections(c)), Sections(c)[i].key) == Clean(Shown(Sections(c)[i].value))
    ensures Lookup(Paper(Sections(c)), Sections(c)[i].key).Some?
  {
    hide Sections, ValidExtras, Clean, Shown, Distinct;
    SectionsDistinct(c);
    LookupDistinct(Paper(Sections(c)), i);
  }

  lemma {:induction false} ExtrasConcat(a: seq<Section>, b: seq<Section>)
    ensures Extras(a + b) == Extras(a) + Extras(b)
  {
    hide REQUIRED_SECTIONS, Clean;
    if a == [] {
      assert a + b == b;
    } else {
      assert (a + b)[1..] == a[1..] + b;
      ExtrasConcat(a[1..], b);
    }
  }

  lemma {:induction false} NoExtras(s: seq<Section>)
    requires forall i :: 0 <= i < |s| ==> s[i].key in REQUIRED_SECTIONS
    ensures Extras(s) == []
  {
    hide REQUIRED_SECTIONS, Clean;
    if s != [] { NoExtras(s[1..]); }
  }

  lemma {:induction false} OnlyExtras(s: seq<Section>)
    requires forall i :: 0 <= i < |s| ==> s[i].key !in REQUIRED_SECTIONS && Prose(s[i].value)
    ensures Extras(Paper(s)) == s
  {
    hide REQUIRED_SECTIONS, Clean, Prose, Shown;
    if s != [] {
      OnlyExtras(s[1..]);
      CleanProse(s[0].value);
      assert Paper(s)[1..] == Paper(s[1..]);
      assert s == [s[0]] + s[1..];
    }
  }

  lemma ExtrasOfPaper(c: Contract)
    requires ValidExtras(c.extra)
    ensures Extras(Paper(Sections(c))) == c.extra
  {
    hide REQUIRED_SECTIONS, Clean, Prose, Shown, RequiredParts, Trimmed, Extras;
    var parts := RequiredParts(c);
    PartLabels(c);
    RequiredLabels();
    assert Paper(Sections(c)) == Paper(parts) + Paper(c.extra);
    ExtrasConcat(Paper(parts), Paper(c.extra));
    NoExtras(Paper(parts));
    OnlyExtras(c.extra);
  }

  lemma PaperIsComplete(c: Contract)
    requires ValidExtras(c.extra)
    ensures Complete(Paper(Sections(c)))
  {
    hide REQUIRED_SECTIONS, RequiredParts, ValidExtras, Paper;
    PartLabels(c);
    RequiredLabels();
    forall name | name in REQUIRED_SECTIONS ensures Lookup(Paper(Sections(c)), name).Some? {
      var i :| 0 <= i < |REQUIRED_SECTIONS| && REQUIRED_SECTIONS[i] == name;
      TextAt(c, i);
      assert Sections(c)[i] == RequiredParts(c)[i];
    }
  }
}
