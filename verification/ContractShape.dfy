/** What every contract looks like that parsing accepts. */
module ContractShape {
  import opened Prelude
  import opened Text
  import opened StateStore
  import opened Budget
  import opened IssueSections
  import opened SectionRoundTrip
  import opened ContractFields
  import opened ContractRules
  import opened ContractBudget
  import opened IssueContract

  // --- what parsed sections look like ------------------------------------------------------------

  ghost predicate Shaped(s: Section) {
    Trimmed(s.key) && '\n' !in s.key && Trimmed(s.value)
  }

  lemma HeadingKey(rows: seq<string>)
    requires rows != [] && Heading(rows).Some? && forall i :: 0 <= i < |rows| ==> Uncut(rows[i], AtNewlines)
    ensures Trimmed(Heading(rows).value.key) && '\n' !in Heading(rows).value.key
  {
    hide Space, Blank, Strip;
    var key := Heading(rows).value.key;
    var k := LeadBlanks(rows[1..]);
    TailPart(rows[0], 3);
    StripPart(rows[0][3..]);
    if k + 1 < |rows| { StripPart(rows[k + 1]); }
    if '\n' in key {
      if !Blank(rows[0][3..]) { RowHasLineEnd(rows[0]); } else if k + 1 < |rows| { RowHasLineEnd(rows[k + 1]); }
    }
  }

  lemma RowHasLineEnd(row: string)
    requires '\n' in row
    ensures !Uncut(row, AtNewlines)
  {
    var i :| 0 <= i < |row| && row[i] == '\n';
    assert Cuts(AtNewlines, row[i]);
  }

  lemma {:induction false} ScanShapes(rows: seq<string>)
    requires forall i :: 0 <= i < |rows| ==> Uncut(rows[i], AtNewlines)
    ensures forall s :: s in Scan(rows) ==> Shaped(s)
    decreases |rows|
  {
    hide Heading, ToNext, Unlines, Strip, Uncut, Space;
    if rows != [] {
      match Heading(rows)
      case None => ScanShapes(rows[1..]);
      case Some(h) =>
        HeadingKey(rows);
        var text := rows[h.used..];
        var n := ToNext(text);
        ScanShapes(text[n..]);
        assert Scan(rows) == [Section(h.key, Strip(Unlines(text[..n])))] + Scan(text[n..]);
    }
  }

  lemma {:induction false} PutDistinct(d: seq<Section>, s: Section)
    requires Distinct(d)
    ensures Distinct(Put(d, s))
  {
    if d != [] && d[0].key != s.key {
      PutDistinct(d[1..], s);
      var r := Put(d[1..], s);
      forall i | 0 <= i < |r| ensures r[i].key != d[0].key {
        assert r[i] in r;
        if r[i] != s {
          var k :| 0 <= k < |d[1..]| && d[1..][k] == r[i];
        }
      }
    }
  }

  lemma {:induction false} GatheredDistinct(found: seq<Section>)
    ensures Distinct(Gather(found))
  {
    if found != [] {
      GatheredDistinct(DropLast(found));
      PutDistinct(Gather(DropLast(found)), Last(found));
    }
  }

  lemma SectionsAreShaped(body: string)
    ensures Distinct(SectionsOf(body)) && forall s :: s in SectionsOf(body) ==> Shaped(s)
  {
    hide Shaped, Distinct, Uncut, SplitAt, Unify, Scan;
    var rows := IssueSections.Rows(Unify(body));
    PiecesUncut(Unify(body), AtNewlines);
    forall i | 0 <= i < |rows| ensures Uncut(rows[i], AtNewlines) { assert rows[i] in rows; }
    ScanShapes(rows);
    GatheredDistinct(Scan(rows));
  }

  // --- what a parsed contract looks like ---------------------------------------------------------

  ghost predicate Prose(s: string) {
    Trimmed(s) && s != NO_RESPONSE
  }

  ghost predicate ExtraOk(x: Section) {
    Trimmed(x.key) && '\n' !in x.key && x.key !in REQUIRED_SECTIONS && Prose(x.value)
  }

  ghost predicate ValidExtras(extra: seq<Section>) {
    Distinct(extra) && forall i :: 0 <= i < |extra| ==> ExtraOk(extra[i])
  }

  function AuthorizationText(extra: seq<Section>): string {
    match Lookup(extra, AUTHORIZATION) case None => "" case Some(v) => v
  }

  ghost predicate WellFormed(c: Contract, env: Env) {
    && (forall s :: s in [c.goal, c.current, c.required, c.outOfScope, c.docs] ==> Prose(s) && s != "")
    && ValidCriteria(c.acs) && c.acs != [] && ValidDomains(c.domains) && c.risk in RISKS
    && c.resource in RESOURCE_CLASSES
    && ValidDependencies(c.deps, c.number) && ValidLocks(c.locks, env.knownLocks)
    && ValidTargets(c.verification, c.acs) && c.verification != []
    && Evidence(c.verification, c.acs, ChangesBehavior(c.domains, env))
    && ValidBudget(c.budget) && c.budget != [] && LostAllowed(c.budget[0].limit, c.risk)
    && ValidExtras(c.extra) && Authorized(c.number, AuthorizationText(c.extra), env) && Trimmed(c.title)
  }

  lemma CleanIsProse(value: string)
    ensures Prose(Clean(value))
  {
  }

  lemma CleanProse(s: string)
    requires Prose(s)
    ensures Clean(s) == s && Clean(Shown(s)) == s && (s != "" ==> Shown(s) == s)
  {
    StripTrimmed(s);
    NoResponseStands();
    StripTrimmed(NO_RESPONSE);
  }

  lemma TextIsProse(s: seq<Section>, name: string)
    ensures Prose(TextOf(s, name))
  {
    hide Prose;
    CleanIsProse("");
    if Lookup(s, name).Some? { CleanIsProse(Lookup(s, name).value); }
    assert Clean("") == "";
  }

  ghost predicate HasKey(s: seq<Section>, key: string) {
    exists i :: 0 <= i < |s| && s[i].key == key
  }

  lemma {:induction false} ExtrasAreOk(s: seq<Section>)
    requires forall x :: x in s ==> Shaped(x)
    ensures forall i :: 0 <= i < |Extras(s)| ==> ExtraOk(Extras(s)[i]) && HasKey(s, Extras(s)[i].key)
  {
    hide Prose, Trimmed, Clean, REQUIRED_SECTIONS;
    if s != [] {
      ExtrasAreOk(s[1..]);
      CleanIsProse(s[0].value);
      assert s[0] in s && HasKey(s, s[0].key);
      var rest := Extras(s[1..]);
      forall i | 0 <= i < |rest| ensures HasKey(s, rest[i].key) { HasKeyBeyond(s, rest[i].key); }
    }
  }

  lemma HasKeyBeyond(s: seq<Section>, key: string)
    requires s != [] && HasKey(s[1..], key)
    ensures HasKey(s, key)
  {
    var k :| 0 <= k < |s[1..]| && s[1..][k].key == key;
    assert s[k + 1].key == key;
  }

  lemma {:induction false} ExtrasAreDistinct(s: seq<Section>)
    requires Distinct(s) && forall x :: x in s ==> Shaped(x)
    ensures Distinct(Extras(s))
  {
    hide Shaped, Clean, REQUIRED_SECTIONS, ExtraOk, HasKey;
    if s != [] {
      ExtrasAreDistinct(s[1..]);
      ExtrasAreOk(s[1..]);
      var rest := Extras(s[1..]);
      forall i | 0 <= i < |rest| ensures rest[i].key != s[0].key { KeyElsewhere(s, rest[i].key); }
    }
  }

  lemma KeyElsewhere(s: seq<Section>, key: string)
    requires s != [] && Distinct(s) && HasKey(s[1..], key)
    ensures key != s[0].key
  {
    var k :| 0 <= k < |s[1..]| && s[1..][k].key == key;
  }

  lemma {:induction false} ExtrasAuthorization(s: seq<Section>)
    ensures AuthorizationText(Extras(s)) == TextOf(s, AUTHORIZATION)
  {
    hide Clean, REQUIRED_SECTIONS;
    AuthorizationIsExtra();
    if s != [] {
      ExtrasAuthorization(s[1..]);
      var rest := Extras(s[1..]);
      var kept := [Section(s[0].key, Clean(s[0].value))];
      assert (kept + rest)[1..] == rest && [] + rest == rest;
    }
  }

  lemma ExtrasOf(s: seq<Section>)
    requires Distinct(s) && forall x :: x in s ==> Shaped(x)
    ensures ValidExtras(Extras(s)) && AuthorizationText(Extras(s)) == TextOf(s, AUTHORIZATION)
  {
    hide Distinct, Extras, AuthorizationText, TextOf, Shaped, HasKey, ExtraOk;
    ExtrasAreOk(s);
    ExtrasAreDistinct(s);
    ExtrasAuthorization(s);
  }

  lemma AuthorizationIsExtra()
    ensures AUTHORIZATION !in REQUIRED_SECTIONS
  {
  }

  lemma LinesOf(text: string)
    ensures forall i :: 0 <= i < |SplitAt(text, AtBreaks)| ==> Uncut(SplitAt(text, AtBreaks)[i], AtBreaks)
  {
    hide Uncut, SplitAt;
    PiecesUncut(text, AtBreaks);
    forall i | 0 <= i < |SplitAt(text, AtBreaks)| ensures Uncut(SplitAt(text, AtBreaks)[i], AtBreaks) {
      assert SplitAt(text, AtBreaks)[i] in SplitAt(text, AtBreaks);
    }
  }

  lemma EvidenceIsThere(ts: seq<Target>, acs: seq<Criterion>, behaviorChanging: bool)
    requires Evidence(ts, acs, behaviorChanging) && acs != []
    ensures ts != []
  {
    assert acs[0] in acs;
  }

  /** Everything parsing accepts is well formed. */
  lemma ParsedIsWellFormed(number: int, title: string, body: string, c: Contract, env: Env)
    requires Parse(number, title, body, env) == Some(c)
    ensures WellFormed(c, env) && c.number == number && c.title == Strip(title)
  {
    hide TextOf, CriteriaOf, DomainsOf, DependenciesOf, LocksOf, TargetsOf, BudgetIn, Extras, Complete, Strip,
         Authorized, SplitAt, ChangesBehavior, SectionsOf, Evidence, LostAllowed, Prose, Trimmed, ValidCriteria,
         ValidDomains, ValidDependencies, ValidLocks, ValidTargets, ValidBudget, ValidExtras, FromSections, Upper,
         Lower, Shaped, Distinct, AuthorizationText;
    var s := SectionsOf(body);
    ParsesMeansGives(s, number, title, c, env);
    SectionsAreShaped(body);
    ExtrasOf(s);
    TextIsProse(s, GOAL);
    TextIsProse(s, CURRENT);
    TextIsProse(s, REQUIRED);
    TextIsProse(s, OUT_OF_SCOPE);
    TextIsProse(s, DOCS);
    LinesOf(TextOf(s, CRITERIA));
    CriteriaAreValid(SplitAt(TextOf(s, CRITERIA), AtBreaks));
    DomainsAreValid(SplitAt(TextOf(s, AFFECTED), AtCommas));
    ListsAreValid(s, number, c, env);
    LinesOf(TextOf(s, VERIFICATION));
    TargetsAreValid(SplitAt(TextOf(s, VERIFICATION), AtBreaks), c.acs);
    EvidenceIsThere(c.verification, c.acs, ChangesBehavior(c.domains, env));
    BudgetIsValid(TextOf(s, BUDGET), c.risk);
  }

  lemma ListsAreValid(s: seq<Section>, number: int, c: Contract, env: Env)
    ensures DependenciesIn(TextOf(s, DEPENDENCIES), number) == Some(c.deps) ==> ValidDependencies(c.deps, number)
    ensures LocksIn(TextOf(s, LOCKS), env.knownLocks) == Some(c.locks) ==> ValidLocks(c.locks, env.knownLocks)
  {
    hide TextOf, DependenciesOf, LocksOf, SplitAt, Strip, Lower, ValidLock;
    var d, l := SplitAt(Strip(TextOf(s, DEPENDENCIES)), AtTokens), SplitAt(TextOf(s, LOCKS), AtCommas);
    if DependenciesOf(d, number).Some? { DependenciesAreValid(d, number); }
    if LocksOf(l, env.knownLocks).Some? { LocksAreValid(l, env.knownLocks); }
  }
}
