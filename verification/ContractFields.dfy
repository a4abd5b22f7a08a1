/** The fields of an Issue contract: how each is read from its section and how it is written back. */
module ContractFields {
  import opened Prelude
  import opened Text
  import opened StateStore
  import opened Budget

  /** One piece of a list field: nothing there, an error, or a value. */
  datatype Read<+T> = Skip | Bad | Good(value: T)

  /** Every character of the one occurs in the other. */
  ghost predicate Part(r: string, s: string) {
    forall c :: c in r ==> c in s
  }

  function DropStars(s: string): (r: string)
    ensures Part(r, s)
  {
    if s != [] && s[0] == '*' then DropStars(s[1..]) else s
  }

  /** Leading dashes, stars and blanks before an item. */
  function DropMarks(s: string): (r: string)
    ensures Part(r, s)
  {
    if s != [] && s[0] in {'-', '*', ' '} then DropMarks(s[1..]) else s
  }

  function DropTicks(s: string): (r: string)
    ensures Part(r, s)
  {
    if s != [] && s[0] == '`' then DropTicks(s[1..]) else s
  }

  function TrimTicks(s: string): (r: string)
    ensures Part(r, s)
  {
    if s != [] && Last(s) == '`' then TrimTicks(DropLast(s)) else s
  }

  lemma UncutPart(r: string, s: string, cut: Cut)
    requires Uncut(s, cut) && Part(r, s)
    ensures Uncut(r, cut)
  {
    hide Cuts;
    forall i | 0 <= i < |r| ensures !Cuts(cut, r[i]) {
      assert r[i] in s;
    }
  }

  // --- lines that belong to an acceptance criterion ----------------------------------------------

  function DropBullet(s: string): (r: string)
    ensures Part(r, s)
  {
    if s != [] && s[0] in {'-', '*'} then s[1..]
    else
      var d := LeadDigits(s);
      if d != [] && |d| < |s| && s[|d|] in {'.', ')'} then s[|d| + 1..] else s
  }

  datatype Item = Item(id: string, rest: string)

  predicate CriterionId(id: string) {
    StartsWith(id, "AC-") && AllDigits(id[3..])
  }

  /** Past an optional bullet, stars and blanks. */
  function ItemStart(line: string): string {
    DropStars(DropSpace(DropBullet(DropSpace(line))))
  }

  /** `AC-n`, then optional stars; what remains starts at the separator. */
  function ItemAt(t: string): (r: Option<Item>) {
    if !StartsWith(t, "AC-") || LeadDigits(t[3..]) == [] then None
    else
      var n := 3 + |LeadDigits(t[3..])|;
      Some(Item(t[..n], DropSpace(DropStars(t[n..]))))
  }

  function ItemOf(line: string): Option<Item> {
    ItemAt(ItemStart(line))
  }

  lemma PartOfPart(a: string, b: string, c: string)
    requires Part(a, b) && Part(b, c)
    ensures Part(a, c)
  {
  }

  lemma TailPart(s: string, n: nat)
    requires n <= |s|
    ensures Part(s[n..], s) && Part(DropSpace(s), s)
  {
    hide Space, DropSpace;
    DropSpaceParts(s);
  }

  lemma ItemStartPart(line: string)
    ensures Part(ItemStart(line), line)
  {
    hide Part, Space, DropSpace, DropBullet, DropStars;
    var a := DropSpace(line);
    var b := DropBullet(a);
    var c := DropSpace(b);
    TailPart(line, 0);
    TailPart(b, 0);
    PartOfPart(b, a, line);
    PartOfPart(c, b, line);
    PartOfPart(DropStars(c), c, line);
  }

  lemma ItemAtValid(t: string)
    ensures ItemAt(t).Some? ==> CriterionId(ItemAt(t).value.id) && Part(ItemAt(t).value.rest, t)
  {
    hide Part, Space, Digit, DropSpace, DropStars;
    if ItemAt(t).None? { return; }
    var n := 3 + |LeadDigits(t[3..])|;
    assert t[..n][3..] == LeadDigits(t[3..]) && t[..n][..3] == t[..3];
    TailPart(t, n);
    var u := DropStars(t[n..]);
    PartOfPart(u, t[n..], t);
    TailPart(u, 0);
    PartOfPart(DropSpace(u), u, t);
  }

  lemma ItemIsValid(line: string)
    ensures ItemOf(line).Some? ==> CriterionId(ItemOf(line).value.id) && Part(ItemOf(line).value.rest, line)
  {
    hide Part, CriterionId, ItemStart, ItemAt;
    ItemStartPart(line);
    ItemAtValid(ItemStart(line));
    if ItemOf(line).None? { return; }
    PartOfPart(ItemOf(line).value.rest, ItemStart(line), line);
  }

  lemma ItemStartPrinted(s: string)
    requires s != [] && !Space(s[0]) && s[0] != '*'
    ensures ItemStart("- " + s) == s
  {
    hide Space, LeadDigits, Part, Blank;
    PrintableChars();
    InkFirst("- " + s);
    assert ("- " + s)[1..] == " " + s;
    OneBlank(s);
  }

  lemma InkFirst(s: string)
    requires s != [] && !Space(s[0])
    ensures DropSpace(s) == s
  {
  }

  lemma OneBlank(s: string)
    requires s != [] && !Space(s[0])
    ensures DropSpace(" " + s) == s
  {
    assert (" " + s)[1..] == s;
  }

  lemma StarsStay(s: string)
    requires s != [] && s[0] != '*'
    ensures DropStars(s) == s
  {
  }

  lemma Slices(a: string, b: string, n: nat)
    requires n <= |a|
    ensures (a + b)[..n] == a[..n] && (a + b)[n..] == a[n..] + b && (a + b)[..|a|] == a && (a + b)[|a|..] == b
  {
  }

  lemma ItemAtPrinted(id: string, rest: string)
    requires CriterionId(id) && rest != [] && !Digit(rest[0]) && rest[0] != '*'
    ensures ItemAt(id + rest) == Some(Item(id, DropSpace(rest)))
  {
    hide Space, Digit, DropSpace, LeadDigits;
    Slices(id, rest, 3);
    LeadDigitsOf(id[3..], rest);
    StarsStay(rest);
    hide DropStars;
    assert |id| == 3 + |id[3..]|;
  }

  lemma ItemOfPrinted(id: string, rest: string)
    requires CriterionId(id) && rest != [] && !Digit(rest[0]) && rest[0] != '*'
    ensures ItemOf("- " + (id + rest)) == Some(Item(id, DropSpace(rest)))
  {
    hide Space, Digit, ItemStart, ItemAt, DropSpace, AllDigits;
    PrintableChars();
    assert (id + rest)[0] == id[..3][0] == 'A';
    ItemStartPrinted(id + rest);
    ItemAtPrinted(id, rest);
  }

  lemma PrintableChars()
    ensures !Space('-') && !Space('A') && !Space('#') && !Space(':') && !Space('=') && Space(' ') && !Digit('*')
    ensures !Digit(':')
    ensures !Digit(' ') && !Space('(') && !Space(')') && !Space('_') && !Space('`') && !Space('"')
  {
  }

  // --- acceptance criteria -----------------------------------------------------------------------

  datatype Criterion = Criterion(id: string, text: string)

  function CriterionFrom(item: Item): Option<Criterion> {
    if item.rest == [] || item.rest[0] !in {':', '-', '\U{2013}', '\U{2014}'} || |Strip(item.rest[1..])| < 8 then None
    else Some(Criterion(item.id, Strip(item.rest[1..])))
  }

  function CriterionOf(line: string): Option<Criterion> {
    match ItemOf(line)
    case None => None
    case Some(item) => CriterionFrom(item)
  }

  predicate HasId(acs: seq<Criterion>, id: string) {
    exists i :: 0 <= i < |acs| && acs[i].id == id
  }

  /** `None` when any line is refused or an id is given twice. */
  function CriteriaOf(lines: seq<string>): Option<seq<Criterion>> {
    if lines == [] then Some([])
    else
      var before := CriteriaOf(DropLast(lines));
      if before.None? || Strip(Last(lines)) == "" then before
      else
        var c := CriterionOf(Last(lines));
        if c.None? || HasId(before.value, c.value.id) then None else Some(before.value + [c.value])
  }

  method ParseCriteria(text: string) returns (acs: Option<seq<Criterion>>)
    ensures acs == CriteriaOf(SplitAt(text, AtBreaks))
  {
    hide CriterionOf, SplitAt, Strip, HasId;
    var lines := SplitAt(text, AtBreaks);
    var found: seq<Criterion> := [];
    var ok := true;
    for i := 0 to |lines|
      invariant (if ok then Some(found) else None) == CriteriaOf(lines[..i])
    {
      assert DropLast(lines[..i + 1]) == lines[..i];
      if Strip(lines[i]) == "" { continue; }
      var c := CriterionOf(lines[i]);
      if c.None? {
        ok := false;
        continue;
      }
      if HasId(found, c.value.id) { ok := false; }
      found := found + [c.value];
    }
    assert lines[..|lines|] == lines;
    acs := if ok then Some(found) else None;
  }

  ghost predicate ValidCriterion(c: Criterion) {
    CriterionId(c.id) && |c.text| >= 8 && Trimmed(c.text) && Uncut(c.text, AtBreaks)
  }

  ghost predicate ValidCriteria(acs: seq<Criterion>) {
    && (forall i :: 0 <= i < |acs| ==> ValidCriterion(acs[i]))
    && (forall i, j :: 0 <= i < j < |acs| ==> acs[i].id != acs[j].id)
  }

  lemma CriterionIsValid(line: string)
    requires Uncut(line, AtBreaks)
    ensures CriterionOf(line).Some? ==> ValidCriterion(CriterionOf(line).value)
  {
    hide Space, Break, Cuts, CriterionId, ItemOf, Part;
    if CriterionOf(line).None? { return; }
    var rest := ItemOf(line).value.rest;
    ItemIsValid(line);
    TailPart(rest, 1);
    StripPart(rest[1..]);
    PartOfPart(Strip(rest[1..]), rest[1..], rest);
    PartOfPart(Strip(rest[1..]), rest, line);
    UncutPart(Strip(rest[1..]), line, AtBreaks);
  }

  lemma StripPart(s: string)
    ensures Part(Strip(s), s)
  {
    hide Strip;
    StripLetters(s);
  }

  lemma {:induction false} CriteriaAreValid(lines: seq<string>)
    requires (forall i :: 0 <= i < |lines| ==> Uncut(lines[i], AtBreaks)) && CriteriaOf(lines).Some?
    ensures ValidCriteria(CriteriaOf(lines).value)
  {
    hide ValidCriterion, CriterionOf, Uncut, Strip;
    if lines != [] {
      CriteriaAreValid(DropLast(lines));
      if Strip(Last(lines)) != "" { CriterionIsValid(Last(lines)); }
    }
  }

  function CriterionLine(c: Criterion): string {
    "- " + c.id + ": " + c.text
  }

  function CriterionLines(acs: seq<Criterion>): (r: seq<string>)
    ensures |r| == |acs| && forall i :: 0 <= i < |acs| ==> r[i] == CriterionLine(acs[i])
  {
    seq(|acs|, i requires 0 <= i < |acs| => CriterionLine(acs[i]))
  }

  lemma CriterionReadsBack(c: Criterion)
    requires ValidCriterion(c)
    ensures CriterionOf(CriterionLine(c)) == Some(c) && Strip(CriterionLine(c)) != ""
  {
    hide Space, Break, Cuts, CriterionId, Uncut, Trimmed, ItemOf, Strip;
    PrintableChars();
    ItemOfPrinted(c.id, ": " + c.text);
    assert "- " + (c.id + (": " + c.text)) == CriterionLine(c);
    assert DropSpace(": " + c.text) == ": " + c.text;
    assert (": " + c.text)[1..] == " " + c.text;
    SpaceBefore(c.text);
    InkStays(CriterionLine(c));
  }

  lemma SpaceBefore(s: string)
    requires Trimmed(s)
    ensures Strip(" " + s) == s
  {
    StripPadded(" ", s, "");
    assert " " + s + "" == " " + s;
  }

  lemma InkStays(s: string)
    requires s != [] && !Space(s[0])
    ensures Strip(s) != ""
  {
    StripBlank(s);
  }

  lemma {:induction false} CriteriaReadBack(acs: seq<Criterion>)
    requires ValidCriteria(acs)
    ensures CriteriaOf(CriterionLines(acs)) == Some(acs)
  {
    hide ValidCriterion, CriterionOf, CriterionLine, Strip;
    if acs != [] {
      CriteriaReadBack(DropLast(acs));
      CriterionReadsBack(Last(acs));
      assert DropLast(CriterionLines(acs)) == CriterionLines(DropLast(acs));
      assert acs == DropLast(acs) + [Last(acs)];
      assert !HasId(DropLast(acs), Last(acs).id);
    }
  }

  // --- affected domains --------------------------------------------------------------------------

  const DOMAINS: seq<string> := ["frontend", "backend", "geometry", "validator", "knowledge", "ai", "qa", "infra"]

  function DomainNamed(d: string): Read<string> {
    var name := if StartsWith(d, "domain:") then d[7..] else d;
    if name in DOMAINS then Good(name) else Bad
  }

  function DomainOf(piece: string): Read<string> {
    if Strip(piece) == "" then Skip else DomainNamed(Strip(DropMarks(Lower(Strip(piece)))))
  }

  function DomainsOf(pieces: seq<string>): Option<seq<string>> {
    if pieces == [] then Some([])
    else
      var before := DomainsOf(DropLast(pieces));
      if before.None? then None
      else match DomainOf(Last(pieces))
        case Skip => before
        case Bad => None
        case Good(d) => if d in before.value then before else Some(before.value + [d])
  }

  ghost predicate ValidDomains(ds: seq<string>) {
    && (forall i :: 0 <= i < |ds| ==> ds[i] in DOMAINS)
    && (forall i, j :: 0 <= i < j < |ds| ==> ds[i] != ds[j])
  }

  lemma {:induction false} DomainsAreValid(pieces: seq<string>)
    requires DomainsOf(pieces).Some?
    ensures ValidDomains(DomainsOf(pieces).value)
  {
    hide Strip, StartsWith;
    if pieces != [] { DomainsAreValid(DropLast(pieces)); }
  }

  method ParseDomains(text: string) returns (domains: Option<seq<string>>)
    ensures domains == if text == "" then None else DomainsOf(SplitAt(text, AtCommas))
  {
    if text == "" { return None; }
    hide DomainOf, SplitAt;
    var pieces := SplitAt(text, AtCommas);
    var found: seq<string> := [];
    var ok := true;
    for i := 0 to |pieces|
      invariant (if ok then Some(found) else None) == DomainsOf(pieces[..i])
    {
      assert DropLast(pieces[..i + 1]) == pieces[..i];
      match DomainOf(pieces[i])
      case Skip =>
      case Bad => ok := false;
      case Good(d) => if d !in found { found := found + [d]; }
    }
    assert pieces[..|pieces|] == pieces;
    domains := if ok then Some(found) else None;
  }

  predicate SmallLetters(s: string) {
    s != [] && forall i :: 0 <= i < |s| ==> 'a' <= s[i] <= 'z'
  }

  lemma DomainsAreWords(d: string)
    requires d in DOMAINS
    ensures SmallLetters(d)
  {
  }

  lemma LettersAreInk(s: string)
    requires SmallLetters(s)
    ensures Trimmed(s) && Uncut(s, AtCommas) && Uncut(s, AtBreaks) && Uncut(" " + s, AtCommas)
  {
  }

  lemma PrefixAt(s: string, prefix: string, i: nat)
    requires i < |prefix|
    ensures StartsWith(s, prefix) ==> i < |s| && s[i] == prefix[i]
  {
    assert StartsWith(s, prefix) ==> s[..|prefix|][i] == s[i];
  }

  lemma DomainReadsBack(d: string)
    requires d in DOMAINS
    ensures DomainOf(d) == Good(d) && DomainOf(" " + d) == Good(d)
  {
    hide Space, Strip, Cuts, DOMAINS, Lower;
    DomainsAreWords(d);
    LettersAreInk(d);
    hide Trimmed;
    StripTrimmed(d);
    SpaceBefore(d);
    LowerPlain(d);
    PrefixAt(d, "domain:", 6);
  }

  lemma {:induction false} DomainsReadBack(ds: seq<string>)
    requires ValidDomains(ds) && ds != []
    ensures DomainsOf(SplitAt(Join(ds, ", "), AtCommas)) == Some(ds)
  {
    hide DomainOf, Cuts, SplitAt, SmallLetters, Uncut;
    var last := Last(ds);
    DomainReadsBack(last);
    DomainsAreWords(last);
    LettersAreInk(last);
    assert ds == DropLast(ds) + [last];
    if |ds| == 1 {
      SplitUncut(last, AtCommas);
      assert DomainsOf(DropLast([last])) == Some([]);
    } else {
      DomainsReadBack(DropLast(ds));
      SplitGlued(ds, AtCommas) by { CommaCuts(); }
      var pieces := SplitAt(Join(DropLast(ds), ", "), AtCommas);
      assert DropLast(pieces + [" " + last]) == pieces;
      assert last !in DropLast(ds);
    }
  }

  lemma CommaCuts()
    ensures Cuts(AtCommas, ',') && Cuts(AtTokens, ',') && Cuts(AtTokens, ' ')
    ensures Cuts(AtNewlines, '\n') && Cuts(AtBreaks, '\n')
  {
  }

  // --- risk and resource class -------------------------------------------------------------------

  const RISKS: seq<string> := ["LOW", "MEDIUM", "HIGH"]
  const RESOURCE_CLASSES: seq<string> := ["LIGHT", "MEDIUM", "HEAVY"]

  function Upper(s: string): (r: string)
    ensures |r| == |s|
    ensures (forall i :: 0 <= i < |s| ==> !('a' <= s[i] <= 'z')) ==> r == s
  {
    if s == [] then [] else [if 'a' <= s[0] <= 'z' then s[0] - 'a' + 'A' else s[0]] + Upper(s[1..])
  }

  function ChoiceOf(text: string, allowed: seq<string>): Option<string> {
    if Upper(Strip(text)) in allowed then Some(Upper(Strip(text))) else None
  }

  predicate Capitals(s: string) {
    s != [] && forall i :: 0 <= i < |s| ==> 'A' <= s[i] <= 'Z'
  }

  lemma ChoicesAreWords(v: string)
    requires v in RISKS || v in RESOURCE_CLASSES
    ensures Capitals(v)
  {
  }

  lemma CapitalsAreInk(v: string)
    requires Capitals(v)
    ensures Trimmed(v) && Uncut(v, AtBreaks) && Upper(v) == v
  {
  }

  lemma ChoiceReadsBack(v: string, allowed: seq<string>)
    requires Capitals(v) && v in allowed
    ensures ChoiceOf(v, allowed) == Some(v)
  {
    hide Strip;
    CapitalsAreInk(v);
    StripTrimmed(v);
  }

  // --- dependencies ------------------------------------------------------------------------------

  function DependencyOf(token: string, number: int): Read<nat> {
    if token == "" then Skip
    else
      var body := if token[0] == '#' then token[1..] else token;
      if AllDigits(body) && Value(body) != number then Good(Value(body)) else Bad
  }

  function DependenciesOf(tokens: seq<string>, number: int): Option<seq<nat>> {
    if tokens == [] then Some([])
    else
      var before := DependenciesOf(DropLast(tokens), number);
      if before.None? then None
      else match DependencyOf(Last(tokens), number)
        case Skip => before
        case Bad => None
        case Good(n) => if n in before.value then before else Some(before.value + [n])
  }

  ghost predicate ValidDependencies(deps: seq<nat>, number: int) {
    && number !in deps && forall i, j :: 0 <= i < j < |deps| ==> deps[i] != deps[j]
  }

  lemma {:induction false} DependenciesAreValid(tokens: seq<string>, number: int)
    requires DependenciesOf(tokens, number).Some?
    ensures ValidDependencies(DependenciesOf(tokens, number).value, number)
  {
    hide Value;
    if tokens != [] { DependenciesAreValid(DropLast(tokens), number); }
  }

  const NO_DEPENDENCIES: set<string> := {"", "none", "-", "n/a", "no"}

  function DependenciesIn(text: string, number: int): Option<seq<nat>> {
    if Lower(Strip(text)) in NO_DEPENDENCIES then Some([]) else DependenciesOf(SplitAt(Strip(text), AtTokens), number)
  }

  method ParseDependencies(text: string, number: int) returns (deps: Option<seq<nat>>)
    ensures deps == DependenciesIn(text, number)
  {
    hide DependencyOf, SplitAt, Strip, Lower;
    if Lower(Strip(text)) in NO_DEPENDENCIES { return Some([]); }
    var tokens := SplitAt(Strip(text), AtTokens);
    var found: seq<nat> := [];
    var ok := true;
    for i := 0 to |tokens|
      invariant (if ok then Some(found) else None) == DependenciesOf(tokens[..i], number)
    {
      assert DropLast(tokens[..i + 1]) == tokens[..i];
      match DependencyOf(tokens[i], number)
      case Skip =>
      case Bad => ok := false;
      case Good(n) => if n !in found { found := found + [n]; }
    }
    assert tokens[..|tokens|] == tokens;
    deps := if ok then Some(found) else None;
  }

  function Tokens(deps: seq<nat>): (r: seq<string>)
    ensures |r| == |deps| && forall i :: 0 <= i < |deps| ==> r[i] == "#" + Decimal(deps[i])
  {
    seq(|deps|, i requires 0 <= i < |deps| => "#" + Decimal(deps[i]))
  }

  function DependenciesText(deps: seq<nat>): string {
    if deps == [] then "none" else Join(Tokens(deps), ", ")
  }

  lemma TokenReadsBack(n: nat, number: int)
    requires n != number
    ensures DependencyOf("#" + Decimal(n), number) == Good(n) && DependencyOf("", number) == Skip
  {
    hide Decimal, Value;
    ValueOfDecimal(n);
    assert ("#" + Decimal(n))[1..] == Decimal(n);
  }

  lemma TokenIsUncut(n: nat, cut: Cut)
    requires cut != AtNewlines && cut != AtSpecs
    ensures Uncut("#" + Decimal(n), cut) && Trimmed("#" + Decimal(n))
  {
    hide Decimal;
    var d := Decimal(n);
    assert Digit(Last(d)) && Last("#" + d) == Last(d);
    assert forall i :: 1 <= i < |"#" + d| ==> ("#" + d)[i] == d[i - 1];
  }

  lemma {:induction false} TokensReadBack(deps: seq<nat>, number: int)
    requires ValidDependencies(deps, number) && deps != []
    ensures DependenciesOf(SplitAt(Join(Tokens(deps), ", "), AtTokens), number) == Some(deps)
  {
    hide DependencyOf, Cuts, SplitAt, Decimal, Uncut, Trimmed, Value, AllDigits;
    var n := Last(deps);
    var token := "#" + Decimal(n);
    assert n in deps;
    TokenReadsBack(n, number);
    TokenIsUncut(n, AtTokens);
    SplitUncut(token, AtTokens);
    assert deps == DropLast(deps) + [n];
    if |deps| == 1 {
      assert DependenciesOf(DropLast([token]), number) == Some([]);
    } else {
      TokensReadBack(DropLast(deps), number);
      TokensSplit(deps);
      var pieces := SplitAt(Join(Tokens(DropLast(deps)), ", "), AtTokens);
      assert DropLast(pieces + ["", token]) == pieces + [""] && DropLast(pieces + [""]) == pieces;
      assert n !in DropLast(deps);
    }
  }

  lemma TokensSplit(deps: seq<nat>)
    requires |deps| > 1
    ensures SplitAt(Join(Tokens(deps), ", "), AtTokens)
         == SplitAt(Join(Tokens(DropLast(deps)), ", "), AtTokens) + ["", "#" + Decimal(Last(deps))]
  {
    hide Cuts, SplitAt, Decimal, Uncut, Trimmed;
    var token := "#" + Decimal(Last(deps));
    TokenIsUncut(Last(deps), AtTokens);
    SplitUncut(token, AtTokens);
    assert DropLast(Tokens(deps)) == Tokens(DropLast(deps));
    var front := Join(Tokens(DropLast(deps)), ", ");
    CommaCuts();
    assert "" + [' '] + token == " " + token && front + [','] + (" " + token) == Join(Tokens(deps), ", ");
    SplitConcat("", ' ', token, AtTokens);
    SplitConcat(front, ',', " " + token, AtTokens);
    NothingToSplit(AtTokens);
    assert SplitAt(front, AtTokens) + ([""] + [token]) == SplitAt(front, AtTokens) + ["", token];
  }

  lemma NothingToSplit(cut: Cut)
    ensures SplitAt("", cut) == [""]
  {
  }
}
