/** Contracts that are lost in print are written in Issues nevertheless: the bodies, and what is lost with each. */
module ContractWriting {
  import opened Prelude
  import opened Text
  import opened StateStore
  import opened Budget
  import opened IssueSections
  import opened SectionRoundTrip
  import opened ContractFields
  import opened ContractRules
  import opened ContractBudget
  import opened IssueContract
  import opened ContractShape
  import opened ContractPrint
  import opened ContractRoundTrip

  // --- line ends as browsers send them ------------------------------------------------------------

  function Dos(s: string): string {
    if s == [] then [] else (if s[0] == '\n' then "\r\n" else [s[0]]) + Dos(s[1..])
  }

  /** One pass over the line ends gives every text back, also one that holds Windows line ends itself. */
  lemma {:induction false} UnifyDos(s: string)
    ensures Unify(Dos(s)) == s
  {
    if s != [] {
      UnifyDos(s[1..]);
      if s[0] == '\n' { UnifyLineEnd(Dos(s[1..])); } else { UnifyStep(s[0], Dos(s[1..])); }
      assert s == [s[0]] + s[1..];
    }
  }

  // --- pages with texts that are not trimmed ------------------------------------------------------

  /** Only the first row may look like a heading. */
  predicate InnerCalm(text: string) {
    forall j :: 1 <= j < |IssueSections.Rows(text)| ==> !Opens(IssueSections.Rows(text)[j])
  }

  lemma Indented(text: string)
    requires InnerCalm(text)
    ensures Calm("  " + text)
  {
    hide SplitAt;
    IndentedRows(text);
    assert !Opens("  " + IssueSections.Rows(text)[0]) by { PrefixAt("  " + IssueSections.Rows(text)[0], "###", 0); }
  }

  lemma IndentedRows(text: string)
    ensures IssueSections.Rows("  " + text) == ["  " + IssueSections.Rows(text)[0]] + IssueSections.Rows(text)[1..]
  {
    assert ("  " + text)[1..] == " " + text && (" " + text)[1..] == text;
    var r := IssueSections.Rows(text);
    assert IssueSections.Rows(" " + text) == [[' '] + r[0]] + r[1..];
    assert ([[' '] + r[0]] + r[1..])[1..] == r[1..];
    assert [' '] + ([' '] + r[0]) == "  " + r[0];
  }

  function Stripped(p: seq<Section>): (r: seq<Section>)
    ensures |r| == |p| && forall i :: 0 <= i < |p| ==> r[i] == Section(p[i].key, Strip(p[i].value))
  {
    if p == [] then [] else [Section(p[0].key, Strip(p[0].value))] + Stripped(p[1..])
  }

  lemma FramedStrip(v: string)
    ensures Strip(Unlines(TextRows(v))) == Strip(v)
  {
    hide Space, SplitAt, Strip;
    UnlinesFramed(IssueSections.Rows(v));
    UnlinesRows(v);
    StripFrame(v);
  }

  lemma StripLeaves(v: string) returns (before: string, after: string)
    ensures v == before + Strip(v) + after && Blank(before) && Blank(after)
  {
    hide Space, Blank, DropSpace, TrimEnd;
    var a := DropSpace(v);
    var r := TrimEnd(a);
    DropSpaceParts(v);
    TrimEndParts(a);
    before, after := v[..|v| - |a|], a[|r|..];
    assert a == r + after;
    assert v == before + a;
    assert v == before + r + after;
  }

  lemma StripFrame(v: string)
    ensures Strip("\n" + v + "\n") == Strip(v)
  {
    hide Space, Strip, Trimmed;
    LineEndIsBlank();
    var before, after := StripLeaves(v);
    BlankConcat("\n", before);
    BlankConcat(after, "\n");
    assert Trimmed(Strip(v)) by { StripIsTrimmed(v); }
    StripPadded("\n" + before, Strip(v), after + "\n");
    Framed(before, Strip(v), after);
  }

  lemma Framed(a: string, b: string, c: string)
    ensures "\n" + (a + b + c) + "\n" == ("\n" + a) + b + (c + "\n")
  {
  }

  lemma StripIsTrimmed(v: string)
    ensures Trimmed(Strip(v))
  {
  }

  lemma TextUpTo(v: string, after: seq<string>)
    requires Calm(v) && (after != [] ==> Heading(after).Some?)
    ensures ToNext(TextRows(v) + after) == |TextRows(v)|
  {
    hide SplitAt, Heading, Blank;
    var text := TextRows(v);
    forall j | 0 <= j < |text| ensures Heading((text + after)[j..]).None? {
      var here := (text + after)[j..];
      assert here[0] == text[j];
      assert !Opens("") by { PrefixAt("", "###", 0); }
      NotAHeading(here);
    }
    assert (text + after)[|text|..] == after;
    NextIs(text + after, |text|);
  }

  lemma NotAHeading(rows: seq<string>)
    requires rows != [] && !Opens(rows[0])
    ensures Heading(rows).None?
  {
  }

  lemma ScanSheet(key: string, v: string, after: seq<string>)
    requires Titled(key) && Calm(v) && (after != [] ==> Heading(after).Some?)
    ensures var rows := ["### " + key] + (TextRows(v) + after);
            Scan(rows) == [Section(key, Strip(v))] + Scan(after) && Heading(rows).Some?
  {
    hide Space, SplitAt, Strip, Heading, ToNext, TextRows, Titled, Calm, Unlines;
    var text := TextRows(v);
    TitleHeads(key, text + after);
    TextUpTo(v, after);
    FramedStrip(v);
    assert (["### " + key] + (text + after))[1..] == text + after;
    assert (text + after)[..|text|] == text && (text + after)[|text|..] == after;
    assert Scan(["### " + key] + (text + after)) == ScanText(key, text + after);
  }

  lemma SheetFirst(p: seq<Section>, tail: seq<string>)
    requires p != []
    ensures PageRows(p) + tail == ["### " + p[0].key] + (TextRows(p[0].value) + (PageRows(p[1..]) + tail))
    ensures Stripped(p) == [Section(p[0].key, Strip(p[0].value))] + Stripped(p[1..])
  {
    hide TextRows, Strip;
  }

  lemma NoSheets(tail: seq<string>)
    ensures PageRows([]) + tail == tail && Stripped([]) + Scan(tail) == Scan(tail)
  {
    hide Scan;
  }

  /** A page of calm texts reads as its texts, trimmed, whatever heading follows it. */
  lemma {:induction false} ScanRaw(p: seq<Section>, tail: seq<string>)
    requires forall i :: 0 <= i < |p| ==> Titled(p[i].key) && Calm(p[i].value)
    requires tail != [] ==> Heading(tail).Some?
    ensures Scan(PageRows(p) + tail) == Stripped(p) + Scan(tail)
    ensures p != [] ==> Heading(PageRows(p) + tail).Some?
  {
    hide Scan, Strip, Heading, TextRows, Titled, Calm, PageRows, Stripped;
    NoSheets(tail);
    if p != [] {
      ScanRaw(p[1..], tail);
      var after := PageRows(p[1..]) + tail;
      assert after != [] ==> Heading(after).Some? by { if p[1..] == [] { assert after == tail; } }
      ScanSheet(p[0].key, p[0].value, after);
      SheetFirst(p, tail);
      var first := [Section(p[0].key, Strip(p[0].value))];
      assert first + (Stripped(p[1..]) + Scan(tail)) == first + Stripped(p[1..]) + Scan(tail);
    } else {
      assert p == [];
    }
  }

  lemma TitleHeads(key: string, rest: seq<string>)
    requires Titled(key)
    ensures Heading(["### " + key] + rest) == Some(Head(key, 1))
  {
    hide Space, Strip;
    LabelRow(key);
  }

  /** A trailing heading mark with two blanks is a section without a label. */
  lemma LabelCanBeEmpty()
    ensures Scan(["###  "]) == [Section("", "")]
  {
    hide Space;
    InkEnds();
    var rows := ["###  "];
    assert rows[1..] == [] && rows[0][3..] == "  ";
    assert Blank(rows[0][3..]);
    assert Heading(rows) == Some(Head("", 1));
    assert Strip("") == "";
  }

  lemma InkEnds()
    ensures !Space('`') && Space(' ') && Blank(" ") && Blank("  ") && Blank("\n  ")
  {
  }

  /** A lone comma names no domain, yet is not refused. */
  lemma CommaNamesNoDomain()
    ensures DomainsIn(",") == Some([])
  {
    assert SplitAt(",", AtCommas) == ["", ""] by {
      assert ","[1..] == "";
      NothingToSplit(AtCommas);
    }
    assert DropLast(["", ""]) == [""] && DropLast([""]) == [];
    assert Strip("") == "";
  }

  /** Any target, also one that ends in a backtick, can be written: with a blank before the closing backtick. */
  lemma BacktickStays(t: Target)
    requires ValidTarget(t)
    ensures TargetOf(t.ac, SpecHead(t.kind) + t.target + " `") == Good(t)
  {
    hide KINDS, Strip, TargetOk, Space, SpecHead, CriterionId, Uncut, TargetIn, TrimTicks, Trimmed;
    var head := SpecHead(t.kind);
    var tail := t.target + " `";
    var spec := head + tail;
    SpecHeadInk(t.kind);
    NonemptyTarget(t);
    InkEnds();
    assert spec == head + t.target + " `" && spec[0] == head[0] && Last(spec) == '`';
    StripTrimmed(spec) by { EndsTrim(spec); }
    assert DropTicks(spec) == spec;
    TrimTicksConcat(head, tail);
    TickTrimmed(t.target);
    SpecReads(t.ac, t.kind, t.target + " ");
    StripPadded("", t.target, " ");
    assert "" + t.target + " " == t.target + " ";
  }

  lemma TickTrimmed(s: string)
    ensures TrimTicks(s + " `") == s + " "
  {
    assert DropLast(s + " `") == s + " ";
  }

  lemma EndsTrim(s: string)
    requires s != "" && !Space(s[0]) && !Space(Last(s))
    ensures Trimmed(s)
  {
  }

  // --- how a contract is written ------------------------------------------------------------------

  function SpacedLine(t: Target): string {
    TargetLine(t) + " `"
  }

  function SpacedLines(ts: seq<Target>): (r: seq<string>)
    ensures |r| == |ts| && forall i :: 0 <= i < |ts| ==> r[i] == SpacedLine(ts[i])
  {
    seq(|ts|, i requires 0 <= i < |ts| => SpacedLine(ts[i]))
  }

  /** What is read from the body written for a contract: its printed sections, but for a lone comma where no domain is
      named and a blank and a backtick after each target. */
  function Readings(c: Contract): (r: seq<Section>)
    ensures |r| == |Sections(c)| && forall i :: 0 <= i < |r| ==> r[i].key == Sections(c)[i].key
  {
    var s := Sections(c);
    seq(|s|, i requires 0 <= i < |s| =>
      if i == 5 && c.domains == [] then Section(s[i].key, ",")
      else if i == 10 then Section(s[i].key, Join(SpacedLines(c.verification), "\n"))
      else if s[i].key == "" then Section("", "")
      else Section(s[i].key, Shown(s[i].value)))
  }

  predicate Unnamed(c: Contract) {
    c.extra != [] && Last(c.extra).key == ""
  }

  /** The body: each text indented, a section without a label as a heading mark at the end, line ends as browsers send
      them. */
  function Written(c: Contract): string {
    var r := Readings(c);
    var p := Raw(if Unnamed(c) then DropLast(r) else r);
    Dos(PageText(p) + if Unnamed(c) then "\n###  " else "")
  }

  function Raw(r: seq<Section>): (p: seq<Section>)
    ensures |p| == |r| && forall i :: 0 <= i < |p| ==> p[i] == Section(r[i].key, "  " + r[i].value)
  {
    seq(|r|, i requires 0 <= i < |r| => Section(r[i].key, "  " + r[i].value))
  }

  /** No text has a row that opens a heading after its first, and only the last section may have an empty label, and
      then no text. */
  predicate Writable(c: Contract) {
    && (forall i :: 0 <= i < |Sections(c)| ==> InnerCalm(Shown(Sections(c)[i].value)))
    && (forall i :: 0 <= i < |c.extra| && c.extra[i].key == "" ==> i == |c.extra| - 1 && c.extra[i].value == "")
  }

  lemma CommaText()
    ensures InnerCalm(",") && Trimmed(",")
  {
    assert ","[1..] == "" && IssueSections.Rows("") == [""];
  }

  // --- the plan ----------------------------------------------------------------------------------

  lemma SpacedIsPlain(ts: seq<Target>, acs: seq<Criterion>)
    requires ValidTargets(ts, acs) && ts != []
    ensures Plain(Join(SpacedLines(ts), "\n"))
    ensures SplitAt(Join(SpacedLines(ts), "\n"), AtBreaks) == SpacedLines(ts)
  {
    hide Space, Break, Cuts, Uncut, PlainLine, CriterionId, HasId, KINDS, SpecHead, TargetOk, SplitAt, Plain,
         TargetLine, ValidTarget;
    var lines := SpacedLines(ts);
    forall i | 0 <= i < |lines|
      ensures lines[i] != "" && PlainLine(lines[i]) && lines[i][0] == '-' && Last(lines[i]) == '`'
      ensures Uncut(lines[i], AtBreaks)
    {
      SpacedLinePlain(ts[i]);
    }
    InkEnds();
    DashUnbroken();
    LinesArePlain(lines);
    CommaCuts();
    SplitJoined(lines, AtBreaks) by { BreaksCut(); }
  }

  lemma BreaksCut()
    ensures Cuts(AtBreaks, '\n')
  {
  }

  lemma SpacedLinePlain(t: Target)
    requires ValidTarget(t)
    ensures var line := SpacedLine(t);
            line != "" && PlainLine(line) && line[0] == '-' && Last(line) == '`' && Uncut(line, AtBreaks)
  {
    hide Space, Break, Cuts, Uncut, PlainLine, CriterionId, KINDS, SpecHead, TargetOk;
    TargetLineUncut(t);
    assert Uncut(" `", AtBreaks) by { TickUncut(); }
    UncutConcat(TargetLine(t), " `", AtBreaks);
    var rest := SpacedLine(t)[2..];
    assert SpacedLine(t) == "- " + rest;
    UncutTail(SpacedLine(t), 2);
    DashLine(rest);
  }

  lemma TickUncut()
    ensures Uncut(" `", AtBreaks) && Uncut(" `", AtSpecs)
  {
  }

  lemma UncutTail(s: string, n: nat)
    requires n <= |s| && Uncut(s, AtBreaks)
    ensures Uncut(s[n..], AtBreaks)
  {
    hide Cuts;
  }

  lemma SpacedPlanReads(t: Target)
    requires ValidTarget(t)
    ensures PlanOf(SpacedLine(t)) == Some(Plan(t.ac, [SpecHead(t.kind) + t.target + " `"]))
    ensures Strip(SpacedLine(t)) != ""
  {
    hide Strip, SpecHead, Uncut, Trimmed, PlanOf, ValidTarget, Space;
    assert CriterionId(t.ac) by { TargetNamesCriterion(t); }
    SpecInk(t);
    var spec := SpecHead(t.kind) + t.target;
    TickUncut();
    UncutConcat(spec, " `", AtSpecs);
    InkEnds();
    assert Trimmed(spec + " `") by { EndsTrim(spec + " `") by { InkStart(spec); } }
    SpecLineReads(t.ac, spec + " `");
    Regroup("- ", t.ac, " -> ", SpecHead(t.kind), t.target);
    assert SpacedLine(t) == "- " + (t.ac + (" -> " + (spec + " `")));
  }

  lemma InkStart(s: string)
    requires s != "" && Trimmed(s)
    ensures !Space(s[0])
  {
  }

  lemma {:induction false} SpacedTargetsRead(ts: seq<Target>, acs: seq<Criterion>)
    requires ValidTargets(ts, acs)
    ensures TargetsOf(SpacedLines(ts), acs) == Some(ts)
  {
    hide ValidTarget, HasId, SpacedLine, Strip, PlanOf, SpecHead, TargetOf;
    if ts != [] {
      var before, t := DropLast(ts), Last(ts);
      SpacedTargetsRead(before, acs);
      SpacedPlanReads(t);
      BacktickStays(t);
      assert SpecHead(t.kind) + t.target + " `" == SpecHead(t.kind) + (t.target + " `");
      assert ts == before + [t] && DropLast(SpacedLines(ts)) == SpacedLines(before);
      OneSpec(before, t.ac, SpecHead(t.kind) + t.target + " `");
    }
  }

  // --- what is read from the body ------------------------------------------------------------------

  lemma PlainIsInnerCalm(text: string)
    requires Plain(text)
    ensures InnerCalm(text) && Trimmed(text)
  {
    hide Space, SplitAt, Opens, HasCrlf;
    StripTrimmed(text);
    UnifyShortens(text);
  }

  lemma ShownIsTrimmed(v: string)
    ensures Trimmed(Shown(v)) && Shown(v) != ""
  {
    NoResponseStands();
  }

  lemma ReadingIsOrderly(c: Contract, env: Env, i: nat)
    requires WellFormed(c, env) && Writable(c) && i < |Readings(c)| && Readings(c)[i].key != ""
    ensures var s := Readings(c)[i]; Titled(s.key) && InnerCalm(s.value) && Trimmed(s.value)
  {
    hide Space, Prose, ValidCriteria, ValidDomains, ValidDependencies, ValidLocks, ValidBudget, ValidTargets, Evidence,
         LostAllowed, Authorized, Titled, InnerCalm, Shown, Join, RequiredParts, REQUIRED_SECTIONS, Plain, Trimmed,
         ExtraOk, ChangesBehavior;
    PartLabels(c);
    RequiredLabels();
    if i < 13 { LabelsAreTitles(REQUIRED_SECTIONS[i]); } else { ExtraTitled(c.extra[i - 13]); }
    CommaText();
    SpacedIsPlain(c.verification, c.acs);
    PlainIsInnerCalm(Join(SpacedLines(c.verification), "\n"));
    ShownIsTrimmed(Sections(c)[i].value);
  }

  lemma UnnamedIsLast(c: Contract, env: Env)
    requires WellFormed(c, env) && Writable(c)
    ensures forall i :: 0 <= i < |Readings(c)| && Readings(c)[i].key == "" ==>
        i == |Readings(c)| - 1 && Unnamed(c) && Readings(c)[i] == Section("", "")
    ensures Unnamed(c) ==> Last(Readings(c)) == Section("", "") && |Readings(c)| > 13
  {
    hide WellFormed, RequiredParts, REQUIRED_SECTIONS, InnerCalm, Shown, Join;
    PartLabels(c);
    forall i | 0 <= i < 13 ensures Readings(c)[i].key != "" { LabelIsNamed(i); }
  }

  lemma LabelIsNamed(i: nat)
    requires i < 13
    ensures |REQUIRED_SECTIONS| == 13 && REQUIRED_SECTIONS[i] != ""
  {
    RequiredLabels();
    LabelsAreTitles(REQUIRED_SECTIONS[i]);
  }

  lemma MarkedRows(text: string)
    ensures IssueSections.Rows(text + "\n###  ") == IssueSections.Rows(text) + ["###  "]
  {
    hide SplitAt;
    assert text + "\n###  " == text + ['\n'] + "###  ";
    SplitConcat(text, '\n', "###  ", AtNewlines) by { CommaCuts(); }
    MarkRow();
  }

  lemma RowsOfText(p: seq<Section>, marked: bool)
    requires p != [] && forall i :: 0 <= i < |p| ==> '\n' !in p[i].key
    ensures IssueSections.Rows(Unify(Dos(PageText(p) + if marked then "\n###  " else ""))) ==
        PageRows(p) + if marked then ["###  "] else []
  {
    hide SplitAt, Unify, PageText, PageRows, Dos, IssueSections.Rows;
    RowsOfPage(p);
    UnifyDos(PageText(p) + if marked then "\n###  " else "");
    if marked {
      MarkedRows(PageText(p));
    } else {
      assert PageText(p) + "" == PageText(p) && PageRows(p) + [] == PageRows(p);
    }
  }

  /** The rows of the written body. */
  lemma WrittenRows(c: Contract, env: Env)
    requires WellFormed(c, env) && Writable(c)
    ensures var p := Raw(if Unnamed(c) then DropLast(Readings(c)) else Readings(c));
            IssueSections.Rows(Unify(Written(c))) == PageRows(p) + if Unnamed(c) then ["###  "] else []
  {
    hide WellFormed, Writable, SplitAt, Unify, PageText, PageRows, Readings, Dos, InnerCalm, Titled;
    UnnamedIsLast(c, env);
    assert |Readings(c)| >= 13;
    var p := Raw(if Unnamed(c) then DropLast(Readings(c)) else Readings(c));
    forall i | 0 <= i < |p| ensures '\n' !in p[i].key {
      assert Readings(c)[i].key != "";
      ReadingIsOrderly(c, env, i);
      TitledHasNoLineEnd(p[i].key);
    }
    RowsOfText(p, Unnamed(c));
  }

  lemma MarkRow()
    ensures IssueSections.Rows("###  ") == ["###  "]
  {
    SplitUncut("###  ", AtNewlines);
  }

  lemma StrippedRaw(r: seq<Section>)
    requires forall i :: 0 <= i < |r| ==> Trimmed(r[i].value)
    ensures Stripped(Raw(r)) == r
  {
    hide Space, Strip, Trimmed;
    forall i | 0 <= i < |r| ensures Stripped(Raw(r))[i] == r[i] { Unindented(r[i].value); }
  }

  lemma Unindented(text: string)
    requires Trimmed(text)
    ensures Strip("  " + text) == text
  {
    InkEnds();
    StripPadded("  ", text, "");
    assert "  " + text + "" == "  " + text;
  }

  lemma RawScans(r: seq<Section>, tail: seq<string>)
    requires forall i :: 0 <= i < |r| ==> Titled(r[i].key) && InnerCalm(r[i].value) && Trimmed(r[i].value)
    requires tail != [] ==> Heading(tail).Some?
    ensures Scan(PageRows(Raw(r)) + tail) == r + Scan(tail)
  {
    hide Titled, Trimmed, InnerCalm, Calm, Scan, PageRows, Heading, Stripped;
    forall i | 0 <= i < |r| ensures Calm(Raw(r)[i].value) { Indented(r[i].value); }
    StrippedRaw(r);
    ScanRaw(Raw(r), tail);
  }

  lemma ReadingsScan(c: Contract, env: Env, r: seq<Section>)
    requires WellFormed(c, env) && Writable(c) && r == if Unnamed(c) then DropLast(Readings(c)) else Readings(c)
    ensures Scan(PageRows(Raw(r)) + if Unnamed(c) then ["###  "] else []) == Readings(c)
  {
    hide WellFormed, Writable, PageRows, Readings, Titled, Trimmed, InnerCalm, Scan, Heading, Raw;
    UnnamedIsLast(c, env);
    forall i | 0 <= i < |r| ensures Titled(r[i].key) && InnerCalm(r[i].value) && Trimmed(r[i].value) {
      assert r[i] == Readings(c)[i] && r[i].key != "";
      ReadingIsOrderly(c, env, i);
    }
    if Unnamed(c) {
      LabelCanBeEmpty();
      MarkHeads();
      RawScans(r, ["###  "]);
      assert Readings(c) == r + [Section("", "")];
    } else {
      RawScans(r, []);
      NothingScans();
      assert r + [] == r;
    }
  }

  /** The written body reads as its readings. */
  lemma WrittenReads(c: Contract, env: Env)
    requires WellFormed(c, env) && Writable(c)
    ensures SectionsOf(Written(c)) == Readings(c) && Distinct(Readings(c))
  {
    hide WellFormed, Writable, SplitAt, Unify, PageRows, Readings, Written, Scan, Distinct, Raw;
    WrittenRows(c, env);
    ReadingsScan(c, env, if Unnamed(c) then DropLast(Readings(c)) else Readings(c));
    ReadingsDistinct(c, env);
    GatherDistinct(Readings(c));
  }

  lemma NothingScans()
    ensures Scan([]) == []
  {
  }

  lemma MarkHeads()
    ensures Heading(["###  "]).Some?
  {
    hide Space;
    InkEnds();
    assert ["###  "][0][3..] == "  ";
  }

  lemma ReadingsDistinct(c: Contract, env: Env)
    requires WellFormed(c, env)
    ensures Distinct(Readings(c)) && ValidExtras(c.extra)
  {
    hide Sections, Readings, ExtraOk;
    ExtrasOfWellFormed(c, env);
    SectionsDistinct(c);
  }

  // --- every contract can be written ---------------------------------------------------------------

  lemma ReadingText(c: Contract, env: Env, i: nat)
    requires WellFormed(c, env) && i < 13
    ensures |Readings(c)| >= 13 && Readings(c)[i].key == REQUIRED_SECTIONS[i]
    ensures TextOf(Readings(c), REQUIRED_SECTIONS[i]) == Clean(Readings(c)[i].value)
    ensures Lookup(Readings(c), REQUIRED_SECTIONS[i]).Some?
    ensures i != 5 && i != 10 ==> Readings(c)[i].value == Shown(RequiredParts(c)[i].value)
  {
    hide WellFormed, RequiredParts, REQUIRED_SECTIONS, Shown, Clean, Distinct, Join, SpacedLines;
    PartLabels(c);
    RequiredLabels();
    LabelIsNamed(i);
    ReadingsDistinct(c, env);
    assert Sections(c)[i] == RequiredParts(c)[i];
    LookupDistinct(Readings(c), i);
  }

  lemma ReadingExtras(c: Contract, env: Env)
    requires WellFormed(c, env) && Writable(c)
    ensures Extras(Readings(c)) == c.extra
  {
    hide WellFormed, REQUIRED_SECTIONS, RequiredParts, Extras, Shown, Clean, Prose, Trimmed, Join, SpacedLines,
         InnerCalm, Distinct;
    PartLabels(c);
    RequiredLabels();
    ReadingsDistinct(c, env);
    UnnamedIsLast(c, env);
    var r := Readings(c);
    var named := if Unnamed(c) then DropLast(c.extra) else c.extra;
    var rest := if Unnamed(c) then [Section("", "")] else [];
    assert r == r[..13] + Paper(named) + rest by {
      forall i | 13 <= i < 13 + |named|
        ensures r[i] == Paper(named)[i - 13]
      {
        assert Sections(c)[i] == c.extra[i - 13];
      }
    }
    ExtrasConcat(r[..13] + Paper(named), rest);
    ExtrasConcat(r[..13], Paper(named));
    NoExtras(r[..13]);
    OnlyExtras(named);
    UnnamedExtra();
    assert Unnamed(c) ==> c.extra == DropLast(c.extra) + [Section("", "")];
  }

  lemma UnnamedExtra()
    ensures Extras([Section("", "")]) == [Section("", "")] && Extras([]) == []
  {
    hide REQUIRED_SECTIONS;
    assert "" !in REQUIRED_SECTIONS by {
      RequiredLabels();
      forall i | 0 <= i < 13 ensures REQUIRED_SECTIONS[i] != "" { LabelIsNamed(i); }
    }
    assert [Section("", "")][1..] == [] && Clean("") == "";
  }

  lemma CommaReads()
    ensures DomainsIn(Clean(",")) == Some([])
  {
    hide DomainsIn, Strip, Trimmed;
    CommaText();
    StripTrimmed(",");
    CommaNamesNoDomain();
    assert "," != NO_RESPONSE;
  }

  lemma ReadingDomains(c: Contract, env: Env)
    requires WellFormed(c, env)
    ensures DomainsIn(Clean(Readings(c)[5].value)) == Some(c.domains)
  {
    hide Plain, DomainsOf, SplitAt, Strip, Trimmed, ValidCriteria, ValidTargets, ValidDependencies, ValidLocks,
         ValidBudget, ValidExtras, Evidence, LostAllowed, Authorized, Prose, Join, SpacedLines, DomainsIn,
         ValidDomains, Clean, Shown;
    assert Sections(c)[5] == Section(AFFECTED, Join(c.domains, ", "));
    if c.domains == [] {
      CommaReads();
    } else {
      assert AFFECTED != "" by { LabelsAreTitles(AFFECTED) by { assert REQUIRED_SECTIONS[5] == AFFECTED; } }
      DomainsInReadsBack(c.domains);
    }
  }

  lemma ReadingTargets(c: Contract, env: Env)
    requires WellFormed(c, env)
    ensures TargetsIn(Clean(Readings(c)[10].value), c.acs, ChangesBehavior(c.domains, env)) == Some(c.verification)
  {
    hide Plain, SplitAt, Strip, Trimmed, Clean, Shown, ValidCriteria, ValidTargets, ValidDependencies, ValidLocks,
         ValidBudget, ValidExtras, Evidence, LostAllowed, Authorized, Prose, Join, SpacedLines, ValidDomains,
         TargetsOf, ChangesBehavior;
    SpacedIsPlain(c.verification, c.acs);
    PlainIsProse(Join(SpacedLines(c.verification), "\n"));
    SpacedTargetsRead(c.verification, c.acs);
    assert |Sections(c)| > 10;
    CleanOfProse(Join(SpacedLines(c.verification), "\n"));
  }

  lemma CleanOfProse(text: string)
    requires Prose(text)
    ensures Clean(text) == text
  {
    CleanProse(text);
  }

  lemma ReadingsGive(c: Contract, env: Env)
    requires WellFormed(c, env) && Writable(c)
    ensures Gives(Readings(c), c.number, c.title, c, env)
  {
    hide Prose, ValidCriteria, ValidDomains, ValidDependencies, ValidLocks, ValidBudget, ValidTargets, ValidExtras,
         Evidence, LostAllowed, Trimmed, TextOf, Clean, Shown, Join, CriteriaIn, DomainsIn, DependenciesIn, LocksIn,
         TargetsIn, BudgetIn, ChoiceOf, Complete, Extras, Strip, Readings, ChangesBehavior, Authorized, RISKS,
         RESOURCE_CLASSES, AuthorizationText, Writable, CriterionLines, DependenciesText, LocksText, RuleLines,
         TargetLines;
    var r := Readings(c);
    forall i: nat | i < 13
      ensures TextOf(r, REQUIRED_SECTIONS[i]) == Clean(r[i].value)
      ensures (i != 5 && i != 10 ==> r[i].value == Shown(RequiredParts(c)[i].value))
    {
      ReadingText(c, env, i);
    }
    ReadingsComplete(c, env);
    ReadingExtras(c, env);
    ExtrasAuthorization(r);
    StripTrimmed(c.title);
    var texts := [c.goal, c.current, c.required, c.outOfScope, c.docs];
    forall i | 0 <= i < 5 ensures Clean(Shown(texts[i])) == texts[i] != "" {
      assert texts[i] in texts;
      CleanProse(texts[i]);
    }
    ListsReadBack(c, env);
    ReadingDomains(c, env);
    ReadingTargets(c, env);
    TextsOfReadings(c, r, texts);
  }

  lemma ReadingsComplete(c: Contract, env: Env)
    requires WellFormed(c, env)
    ensures Complete(Readings(c))
  {
    hide WellFormed, Readings, REQUIRED_SECTIONS;
    RequiredLabels();
    forall name | name in REQUIRED_SECTIONS ensures Lookup(Readings(c), name).Some? {
      var i :| 0 <= i < |REQUIRED_SECTIONS| && REQUIRED_SECTIONS[i] == name;
      ReadingText(c, env, i);
    }
  }

  /** The readings, section by section. */
  lemma TextsOfReadings(c: Contract, r: seq<Section>, texts: seq<string>)
    requires |r| >= 13 && texts == [c.goal, c.current, c.required, c.outOfScope, c.docs]
    requires forall i: nat :: i < 13 ==>
               TextOf(r, REQUIRED_SECTIONS[i]) == Clean(r[i].value)
                   && (i != 5 && i != 10 ==> r[i].value == Shown(RequiredParts(c)[i].value))
    requires forall i :: 0 <= i < 5 ==> Clean(Shown(texts[i])) == texts[i] != ""
    ensures c.goal == TextOf(r, GOAL) != "" && c.current == TextOf(r, CURRENT) != ""
    ensures c.required == TextOf(r, REQUIRED) != ""
    ensures c.outOfScope == TextOf(r, OUT_OF_SCOPE) != "" && c.docs == TextOf(r, DOCS) != ""
    ensures TextOf(r, CRITERIA) == Clean(Shown(Join(CriterionLines(c.acs), "\n")))
    ensures TextOf(r, AFFECTED) == Clean(r[5].value)
    ensures TextOf(r, RISK) == Clean(Shown(c.risk)) && TextOf(r, RESOURCE) == Clean(Shown(c.resource))
    ensures TextOf(r, DEPENDENCIES) == Clean(Shown(DependenciesText(c.deps)))
    ensures TextOf(r, LOCKS) == Clean(Shown(LocksText(c.locks)))
    ensures TextOf(r, VERIFICATION) == Clean(r[10].value)
    ensures TextOf(r, BUDGET) == Clean(Shown(Join(RuleLines(c.budget), "\n")))
  {
    hide TextOf, Clean, Shown, Join, CriterionLines, DependenciesText, LocksText, RuleLines, TargetLines;
    assert texts[0] == c.goal && texts[1] == c.current && texts[2] == c.required && texts[3] == c.outOfScope;
    assert texts[4] == c.docs;
    assert REQUIRED_SECTIONS[0] == GOAL && REQUIRED_SECTIONS[1] == CURRENT && REQUIRED_SECTIONS[2] == REQUIRED;
    assert REQUIRED_SECTIONS[3] == CRITERIA && REQUIRED_SECTIONS[4] == OUT_OF_SCOPE && REQUIRED_SECTIONS[5] == AFFECTED;
    assert REQUIRED_SECTIONS[6] == RISK && REQUIRED_SECTIONS[7] == RESOURCE && REQUIRED_SECTIONS[8] == DEPENDENCIES;
    assert REQUIRED_SECTIONS[9] == LOCKS && REQUIRED_SECTIONS[10] == VERIFICATION && REQUIRED_SECTIONS[11] == BUDGET;
    assert REQUIRED_SECTIONS[12] == DOCS;
    hide REQUIRED_SECTIONS;
  }

  /** Every well-formed contract is admitted from some Issue body, whatever would become of it in print, as long as no
      text has a heading row after its first row and only a last, empty section has no label. */
  lemma EveryContractCanBeWritten(c: Contract, env: Env)
    requires WellFormed(c, env) && Writable(c)
    ensures Parse(c.number, c.title, Written(c), env) == Some(c)
  {
    hide WellFormed, Writable, Written, Readings, Gives, FromSections, Distinct;
    WrittenReads(c, env);
    ReadingsGive(c, env);
    ParsesMeansGives(Readings(c), c.number, c.title, c, env);
  }

  /** So every such contract that is not faithful is admitted from a body and lost when it is printed and read back. */
  lemma UnfaithfulIsLost(c: Contract, env: Env)
    requires WellFormed(c, env) && Writable(c) && !Faithful(c)
    ensures Parse(c.number, c.title, Written(c), env) == Some(c)
    ensures Parse(c.number, c.title, RenderBody(c), env) != Some(c)
  {
    hide WellFormed, Writable, Written, Faithful, Parse;
    EveryContractCanBeWritten(c, env);
    RoundTripExactly(c.number, c.title, Written(c), c, env);
  }
}
