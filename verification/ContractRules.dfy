/** The required locks and the verification plan of an Issue contract, as they are read and as they are written. */
module ContractRules {
  import opened Prelude
  import opened Text
  import opened StateStore
  import opened ContractFields

  // --- required locks ----------------------------------------------------------------------------

  predicate NameChar(c: char) {
    'a' <= c <= 'z' || 'A' <= c <= 'Z' || Digit(c) || c == '-'
  }

  function LeadName(s: string): (r: string)
    ensures |r| <= |s| && r == s[..|r|]
  {
    if s != [] && NameChar(s[0]) then [s[0]] + LeadName(s[1..]) else []
  }

  /** The bracketed mode after a lock name; no brackets mean exclusive. */
  function ModeOf(s: string): Option<Mode> {
    var r := DropSpace(s);
    if r == "" then Some(Exclusive)
    else if r[0] != '(' then None
    else ModeIn(Lower(DropSpace(r[1..])))
  }

  function ModeIn(w: string): Option<Mode> {
    if StartsWith(w, "exclusive") && Closed(w[9..]) then Some(Exclusive)
    else if StartsWith(w, "shared") && Closed(w[6..]) then Some(Shared)
    else None
  }

  predicate Closed(s: string) {
    var e := DropSpace(s);
    e != "" && e[0] == ')' && Blank(e[1..])
  }

  predicate LockName(name: string) {
    name != "" && name[0] != '-' && forall i :: 0 <= i < |name| ==>
        'a' <= name[i] <= 'z' || Digit(name[i]) || name[i] == '-'
  }

  function LockAt(t: string, known: Option<set<string>>): Read<LockReq> {
    var name := LeadName(t);
    var mode := ModeOf(t[|name|..]);
    if name == "" || name[0] == '-' || mode.None? || (known.Some? && Lower(name) !in known.value) then Bad
    else Good(LockReq(Lower(name), mode.value))
  }

  function LockOf(piece: string, known: Option<set<string>>): Read<LockReq> {
    if Strip(piece) == "" then Skip else LockAt(DropSpace(DropMarks(Strip(piece))), known)
  }

  predicate Names(locks: seq<LockReq>, name: string) {
    exists i :: 0 <= i < |locks| && locks[i].name == name
  }

  /** `None` when an entry is refused or a lock is listed twice. */
  function LocksOf(pieces: seq<string>, known: Option<set<string>>): Option<seq<LockReq>> {
    if pieces == [] then Some([])
    else
      var before := LocksOf(DropLast(pieces), known);
      if before.None? then None
      else match LockOf(Last(pieces), known)
        case Skip => before
        case Bad => None
        case Good(l) => if Names(before.value, l.name) then None else Some(before.value + [l])
  }

  const NO_LOCKS: set<string> := {"", "none", "-", "n/a", "default", "defaults"}

  function LocksIn(text: string, known: Option<set<string>>): Option<seq<LockReq>> {
    if Lower(Strip(text)) in NO_LOCKS then Some([]) else LocksOf(SplitAt(text, AtCommas), known)
  }

  method ParseLocks(text: string, known: Option<set<string>>) returns (locks: Option<seq<LockReq>>)
    ensures locks == LocksIn(text, known)
  {
    hide LockOf, SplitAt, Strip, Lower, Names;
    if Lower(Strip(text)) in NO_LOCKS { return Some([]); }
    var pieces := SplitAt(text, AtCommas);
    var found: seq<LockReq> := [];
    var ok := true;
    for i := 0 to |pieces|
      invariant (if ok then Some(found) else None) == LocksOf(pieces[..i], known)
    {
      assert DropLast(pieces[..i + 1]) == pieces[..i];
      match LockOf(pieces[i], known)
      case Skip =>
      case Bad => ok := false;
      case Good(l) =>
        if Names(found, l.name) { ok := false; }
        found := found + [l];
    }
    assert pieces[..|pieces|] == pieces;
    locks := if ok then Some(found) else None;
  }

  ghost predicate ValidLock(l: LockReq, known: Option<set<string>>) {
    LockName(l.name) && (known.Some? ==> l.name in known.value)
  }

  ghost predicate ValidLocks(locks: seq<LockReq>, known: Option<set<string>>) {
    && (forall i :: 0 <= i < |locks| ==> ValidLock(locks[i], known))
    && (forall i, j :: 0 <= i < j < |locks| ==> locks[i].name != locks[j].name)
  }

  lemma {:induction false} LeadNameChars(s: string)
    ensures forall i :: 0 <= i < |LeadName(s)| ==> NameChar(LeadName(s)[i])
  {
    if s != [] && NameChar(s[0]) { LeadNameChars(s[1..]); }
  }

  lemma LowerNames(name: string)
    requires name != "" && name[0] != '-' && forall i :: 0 <= i < |name| ==> NameChar(name[i])
    ensures LockName(Lower(name))
  {
    hide Lower;
    forall i | 0 <= i < |name| ensures Lower(name)[i] == LowerChar(name[i]) { LowerAt(name, i); }
  }

  lemma LockIsValid(piece: string, known: Option<set<string>>)
    requires LockOf(piece, known).Good?
    ensures ValidLock(LockOf(piece, known).value, known)
  {
    hide Space, Strip, ModeOf, LockName, NameChar;
    var t := DropSpace(DropMarks(Strip(piece)));
    LeadNameChars(t);
    LowerNames(LeadName(t));
  }

  lemma {:induction false} LocksAreValid(pieces: seq<string>, known: Option<set<string>>)
    requires LocksOf(pieces, known).Some?
    ensures ValidLocks(LocksOf(pieces, known).value, known)
  {
    hide LockOf, ValidLock;
    if pieces != [] {
      LocksAreValid(DropLast(pieces), known);
      if LockOf(Last(pieces), known).Good? { LockIsValid(Last(pieces), known); }
    }
  }

  function ModeText(m: Mode): string {
    match m case Exclusive => "exclusive" case Shared => "shared"
  }

  function LockText(l: LockReq): string {
    l.name + " (" + ModeText(l.mode) + ")"
  }

  function LockTexts(locks: seq<LockReq>): (r: seq<string>)
    ensures |r| == |locks| && forall i :: 0 <= i < |locks| ==> r[i] == LockText(locks[i])
  {
    seq(|locks|, i requires 0 <= i < |locks| => LockText(locks[i]))
  }

  function LocksText(locks: seq<LockReq>): string {
    if locks == [] then "none" else Join(LockTexts(locks), ", ")
  }

  lemma BracketCloses()
    ensures Closed(")")
  {
    hide Space;
    PrintableChars();
    InkFirst(")");
  }

  lemma ModeWordReads(m: Mode)
    ensures ModeIn(ModeText(m) + ")") == Some(m)
  {
    hide Closed;
    BracketCloses();
    var w := ModeText(m) + ")";
    if m == Exclusive {
      assert w[..9] == "exclusive" && w[9..] == ")";
    } else {
      assert w[..6] == "shared" && w[6..] == ")";
      PrefixAt(w, "exclusive", 0);
    }
  }

  lemma ModeWordPlain(m: Mode)
    ensures var w := ModeText(m) + ")"; Lower(w) == w && !Space(w[0])
  {
    LowerPlain(ModeText(m) + ")");
  }

  lemma ModeReadsBack(m: Mode)
    ensures ModeOf(" (" + ModeText(m) + ")") == Some(m)
  {
    hide Space, ModeIn, DropSpace, Lower, ModeText;
    var w := ModeText(m) + ")";
    PrintableChars();
    ModeWordPlain(m);
    ModeWordReads(m);
    OneBlank("(" + w);
    assert " (" + ModeText(m) + ")" == " " + ("(" + w) && ("(" + w)[1..] == w;
    InkFirst(w);
  }

  lemma {:induction false} LeadNameOf(name: string, rest: string)
    requires (forall i :: 0 <= i < |name| ==> NameChar(name[i])) && rest != "" && !NameChar(rest[0])
    ensures LeadName(name + rest) == name
  {
    hide NameChar;
    if name == "" {
      assert name + rest == rest;
    } else {
      assert (name + rest)[1..] == name[1..] + rest;
      LeadNameOf(name[1..], rest);
    }
  }

  lemma LockNameInk(name: string)
    requires LockName(name)
    ensures name != "" && !Space(name[0]) && name[0] !in {'-', '*', ' '} && Lower(name) == name
    ensures forall i :: 0 <= i < |name| ==> NameChar(name[i]) && !Break(name[i]) && name[i] != ','
  {
    LowerPlain(name);
  }

  lemma LockTextInk(l: LockReq)
    requires LockName(l.name)
    ensures Trimmed(LockText(l)) && LockText(l) != "" && LockText(l)[0] == l.name[0] && Last(LockText(l)) == ')'
    ensures Uncut(" " + LockText(l), AtCommas) && Uncut(LockText(l), AtCommas) && Uncut(LockText(l), AtBreaks)
  {
    hide LockName, Space, Break, ModeText;
    PrintableChars();
    BracketsUnbroken();
    LockNameInk(l.name);
    var tail := " (" + ModeText(l.mode) + ")";
    var text := LockText(l);
    assert text == l.name + tail && Last(tail) == ')';
    assert text[0] == l.name[0] && Last(text) == ')';
    assert forall i :: 0 <= i < |tail| ==> !Break(tail[i]) && tail[i] != ',' by { BracketedUnbroken(l.mode); }
    LineEndIsBreak();
    forall i | 0 <= i < |text| ensures !Break(text[i]) && text[i] != ',' && text[i] != '\n' {
      assert text[i] == if i < |l.name| then l.name[i] else tail[i - |l.name|];
    }
    forall i | 0 <= i < |" " + text| ensures (" " + text)[i] != ',' && (" " + text)[i] != '\n' {
      assert (" " + text)[i] == if i == 0 then ' ' else text[i - 1];
    }
  }

  lemma LineEndIsBreak()
    ensures Break('\n')
  {
  }

  lemma BracketsUnbroken()
    ensures !Break(' ')
  {
  }

  lemma BracketedUnbroken(m: Mode)
    ensures var tail := " (" + ModeText(m) + ")"; forall i :: 0 <= i < |tail| ==> !Break(tail[i]) && tail[i] != ','
  {
  }

  lemma LockReadsBack(l: LockReq, known: Option<set<string>>)
    requires ValidLock(l, known)
    ensures LockOf(LockText(l), known) == Good(l) && LockOf(" " + LockText(l), known) == Good(l)
  {
    hide Space, Strip, ModeOf, LockName, Trimmed, Uncut;
    var text, tail := LockText(l), " (" + ModeText(l.mode) + ")";
    LockNameInk(l.name);
    LockTextInk(l);
    StripTrimmed(text);
    SpaceBefore(text);
    InkFirst(text);
    assert text == l.name + tail;
    LeadNameOf(l.name, tail);
    assert text[|l.name|..] == tail;
    ModeReadsBack(l.mode);
  }

  lemma LocksNext(pieces: seq<string>, piece: string, l: LockReq, before: seq<LockReq>, known: Option<set<string>>)
    requires !Names(before, l.name)
    ensures LocksOf(pieces, known) == Some(before) && LockOf(piece, known) == Good(l) ==>
        LocksOf(pieces + [piece], known) == Some(before + [l])
  {
    hide LockOf, Names;
    assert DropLast(pieces + [piece]) == pieces;
  }

  lemma {:induction false} LocksReadBack(locks: seq<LockReq>, known: Option<set<string>>)
    requires ValidLocks(locks, known) && locks != []
    ensures LocksOf(SplitAt(Join(LockTexts(locks), ", "), AtCommas), known) == Some(locks)
  {
    hide LockOf, LocksOf, Cuts, SplitAt, LockText, Uncut, LockName, Trimmed;
    var before, l := DropLast(locks), Last(locks);
    var text := LockText(l);
    LockReadsBack(l, known);
    LockTextInk(l);
    NewName(locks);
    if |locks| == 1 {
      SplitUncut(text, AtCommas);
      NoLocksYet(known);
      LocksNext([], text, l, [], known);
      assert [] + [text] == [text] && [] + [l] == locks;
    } else {
      LocksReadBack(before, known);
      assert DropLast(LockTexts(locks)) == LockTexts(before);
      CommaCuts();
      SplitGlued(LockTexts(locks), AtCommas);
      LocksNext(SplitAt(Join(LockTexts(before), ", "), AtCommas), " " + text, l, before, known);
      assert before + [l] == locks;
    }
  }

  lemma NewName(locks: seq<LockReq>)
    requires locks != [] && forall i, j :: 0 <= i < j < |locks| ==> locks[i].name != locks[j].name
    ensures !Names(DropLast(locks), Last(locks).name)
  {
  }

  lemma NoLocksYet(known: Option<set<string>>)
    ensures LocksOf([], known) == Some([])
  {
  }

  // --- verification plan -------------------------------------------------------------------------

  datatype Target = Target(ac: string, kind: string, target: string)

  const TYPES: seq<string> := ["TEST", "REGRESSION", "STATIC", "ARTIFACT", "SEMANTIC_REVIEW"]
  const KINDS: seq<string> := ["pytest", "vitest", "cmd", "regression", "static", "file", "grep", "review"]
  const STATIC_TARGETS: seq<string> := ["backend-compile", "backend-import", "frontend-lint", "frontend-types"]

  /** The type of evidence a kind of target produces. */
  function TypeOf(kind: string): (r: string) {
    if kind in {"pytest", "vitest", "cmd"} then "TEST"
    else if kind == "regression" then "REGRESSION"
    else if kind == "static" then "STATIC"
    else if kind in {"file", "grep"} then "ARTIFACT"
    else "SEMANTIC_REVIEW"
  }

  predicate Deterministic(t: Target) {
    TypeOf(t.kind) != "SEMANTIC_REVIEW"
  }

  predicate ClimbsUp(path: string) {
    exists i :: 0 <= i < |path| - 1 && path[i] == '.' && path[i + 1] == '.'
  }

  predicate TargetOk(kind: string, target: string) {
    && target != ""
    && (kind == "regression" ==> target == "corpus")
    && (kind == "grep" ==> ':' in target)
    && (kind == "cmd" ==> StartsWith(target, "scripts/"))
    && (kind == "static" ==> target in STATIC_TARGETS)
    && (kind == "review" ==> |target| >= 12)
    && (kind in {"pytest", "vitest", "file"} ==> !ClimbsUp(target) && target[0] != '/')
  }

  datatype Halves = Halves(before: string, after: string)

  /** The text before and after the first colon. */
  function AtColon(s: string): (r: Option<Halves>)
    ensures r.Some? ==> Part(r.value.after, s)
  {
    if s == "" then None
    else if s[0] == ':' then Some(Halves("", s[1..]))
    else match AtColon(s[1..])
      case None => None
      case Some(h) => Some(Halves([s[0]] + h.before, h.after))
  }

  function TargetFrom(ac: string, stated: Option<string>, h: Halves): Read<Target> {
    var kind, target := Lower(Strip(h.before)), Strip(h.after);
    if kind !in KINDS || (stated.Some? && stated.value != TypeOf(kind)) || !TargetOk(kind, target) then Bad
    else Good(Target(ac, kind, target))
  }

  /** `[TYPE:]kind:target` without its backticks. */
  function TargetIn(ac: string, s: string): Read<Target> {
    match AtColon(s)
    case None => Bad
    case Some(h) =>
      if Strip(h.before) in TYPES then
        match AtColon(h.after)
        case None => Bad
        case Some(g) => TargetFrom(ac, Some(Strip(h.before)), g)
      else TargetFrom(ac, None, h)
  }

  function TargetOf(ac: string, spec: string): Read<Target> {
    if Strip(spec) == "" then Skip else TargetIn(ac, TrimTicks(DropTicks(Strip(spec))))
  }

  datatype Plan = Plan(ac: string, specs: seq<string>)

  function ArrowLength(s: string): (n: nat)
    ensures n <= |s|
  {
    if StartsWith(s, "->") || StartsWith(s, "=>") then 2
    else if s != "" && s[0] in {':', '\U{2192}'} then 1
    else 0
  }

  function PlanFrom(item: Item): Option<Plan> {
    var n := ArrowLength(item.rest);
    if n == 0 || n == |item.rest| then None else Some(Plan(item.id, SplitAt(Strip(item.rest[n..]), AtSpecs)))
  }

  function PlanOf(line: string): Option<Plan> {
    match ItemOf(line)
    case None => None
    case Some(item) => PlanFrom(item)
  }

  function AddTargets(acc: seq<Target>, ac: string, specs: seq<string>): Option<seq<Target>> {
    if specs == [] then Some(acc)
    else
      var before := AddTargets(acc, ac, DropLast(specs));
      if before.None? then None
      else match TargetOf(ac, Last(specs))
        case Skip => before
        case Bad => None
        case Good(t) => Some(before.value + [t])
  }

  /** `None` when a line or a target is refused, or names a criterion that is not there. */
  function TargetsOf(lines: seq<string>, acs: seq<Criterion>): Option<seq<Target>> {
    if lines == [] then Some([])
    else
      var before := TargetsOf(DropLast(lines), acs);
      if before.None? || Strip(Last(lines)) == "" then before
      else match PlanOf(Last(lines))
        case None => None
        case Some(plan) => if HasId(acs, plan.ac) then AddTargets(before.value, plan.ac, plan.specs) else None
  }

  /** Every criterion has evidence; deterministic evidence where behaviour changes, and some at all events. */
  predicate Evidence(targets: seq<Target>, acs: seq<Criterion>, behaviorChanging: bool) {
    && (forall a :: a in acs ==> Covers(targets, a.id, false))
    && (behaviorChanging ==> forall a :: a in acs ==> Covers(targets, a.id, true))
    && (targets != [] ==> exists t :: t in targets && Deterministic(t))
  }

  predicate Covers(targets: seq<Target>, id: string, deterministic: bool) {
    exists t :: t in targets && t.ac == id && (deterministic ==> Deterministic(t))
  }

  method ParseVerification(text: string, acs: seq<Criterion>, behaviorChanging: bool)
      returns (targets: Option<seq<Target>>)
    ensures targets == var ts := TargetsOf(SplitAt(text, AtBreaks), acs);
                       if ts.Some? && Evidence(ts.value, acs, behaviorChanging) then ts else None
  {
    hide PlanOf, SplitAt, Strip, HasId, TargetOf, Deterministic;
    var lines := SplitAt(text, AtBreaks);
    var found: seq<Target> := [];
    var ok := true;
    for i := 0 to |lines|
      invariant (if ok then Some(found) else None) == TargetsOf(lines[..i], acs)
    {
      assert DropLast(lines[..i + 1]) == lines[..i];
      if Strip(lines[i]) == "" { continue; }
      var plan := PlanOf(lines[i]);
      if plan.None? {
        ok := false;
        continue;
      }
      if !HasId(acs, plan.value.ac) { ok := false; }
      ghost var before := found;
      ghost var fine := ok;
      for j := 0 to |plan.value.specs|
        invariant ok ==> fine
        invariant fine ==>
            (if ok then Some(found) else None) == AddTargets(before, plan.value.ac, plan.value.specs[..j])
      {
        assert DropLast(plan.value.specs[..j + 1]) == plan.value.specs[..j];
        match TargetOf(plan.value.ac, plan.value.specs[j])
        case Skip =>
        case Bad => ok := false;
        case Good(t) => found := found + [t];
      }
      assert plan.value.specs[..|plan.value.specs|] == plan.value.specs;
    }
    assert lines[..|lines|] == lines;
    if !ok { return None; }
    var some := false;
    for i := 0 to |found|
      invariant some <==> exists t :: t in found[..i] && Deterministic(t)
    {
      assert found[..i + 1] == found[..i] + [found[i]];
      if Deterministic(found[i]) { some := true; }
    }
    assert found[..|found|] == found;
    if found != [] && !some { ok := false; }
    for i := 0 to |acs|
      invariant ok <==> (found != [] ==> some) && forall k :: 0 <= k < i ==>
                    Covers(found, acs[k].id, false) && (behaviorChanging ==> Covers(found, acs[k].id, true))
    {
      if !Covers(found, acs[i].id, false) {
        ok := false;
      } else if behaviorChanging && !Covers(found, acs[i].id, true) {
        ok := false;
      }
    }
    assert Evidence(found, acs, behaviorChanging) <==> ok;
    targets := if ok then Some(found) else None;
  }

  ghost predicate ValidTarget(t: Target) {
    && CriterionId(t.ac) && t.kind in KINDS && TargetOk(t.kind, t.target)
    && Trimmed(t.target) && Uncut(t.target, AtBreaks) && Uncut(t.target, AtSpecs)
  }

  ghost predicate ValidTargets(ts: seq<Target>, acs: seq<Criterion>) {
    forall i :: 0 <= i < |ts| ==> ValidTarget(ts[i]) && HasId(acs, ts[i].ac)
  }

  lemma TargetPart(ac: string, spec: string)
    requires TargetOf(ac, spec).Good?
    ensures var t := TargetOf(ac, spec).value;
            t.ac == ac && t.kind in KINDS && TargetOk(t.kind, t.target) && Trimmed(t.target) && Part(t.target, spec)
  {
    hide Part, Space, Strip, KINDS, TYPES, TargetOk, TypeOf, Lower;
    var a := Strip(spec);
    var b := DropTicks(a);
    var c := TrimTicks(b);
    StripPart(spec);
    PartOfPart(b, a, spec);
    PartOfPart(c, b, spec);
    var h := AtColon(c).value;
    PartOfPart(h.after, c, spec);
    var last := if Strip(h.before) in TYPES then AtColon(h.after).value.after else h.after;
    if Strip(h.before) in TYPES { PartOfPart(last, h.after, spec); }
    StripPart(last);
    PartOfPart(Strip(last), last, spec);
  }

  lemma {:induction false} AddedAreValid(acc: seq<Target>, ac: string, specs: seq<string>, acs: seq<Criterion>)
    requires ValidTargets(acc, acs) && CriterionId(ac) && HasId(acs, ac)
    requires forall i :: 0 <= i < |specs| ==> Uncut(specs[i], AtBreaks) && Uncut(specs[i], AtSpecs)
    ensures AddTargets(acc, ac, specs).Some? ==> ValidTargets(AddTargets(acc, ac, specs).value, acs)
  {
    hide TargetOf, HasId, Uncut, CriterionId, KINDS, TargetOk, Trimmed;
    if specs != [] {
      AddedAreValid(acc, ac, DropLast(specs), acs);
      var spec := Last(specs);
      if TargetOf(ac, spec).Good? {
        TargetPart(ac, spec);
        UncutPart(TargetOf(ac, spec).value.target, spec, AtBreaks);
        UncutPart(TargetOf(ac, spec).value.target, spec, AtSpecs);
      }
    }
  }

  lemma PlanIsValid(line: string)
    requires Uncut(line, AtBreaks)
    ensures PlanOf(line).Some? ==>
            var plan := PlanOf(line).value;
            CriterionId(plan.ac) && forall i :: 0 <= i < |plan.specs| ==>
                Uncut(plan.specs[i], AtBreaks) && Uncut(plan.specs[i], AtSpecs)
  {
    hide Part, Uncut, CriterionId, ItemOf, SplitAt, Strip, ArrowLength;
    ItemIsValid(line);
    if PlanOf(line).None? { return; }
    var item := ItemOf(line).value;
    var tail := item.rest[ArrowLength(item.rest)..];
    TailPart(item.rest, ArrowLength(item.rest));
    StripPart(tail);
    PartOfPart(Strip(tail), tail, item.rest);
    PartOfPart(Strip(tail), item.rest, line);
    var specs := SplitAt(Strip(tail), AtSpecs);
    PiecesUncut(Strip(tail), AtSpecs);
    forall i | 0 <= i < |specs| ensures Uncut(specs[i], AtBreaks) && Uncut(specs[i], AtSpecs) {
      assert specs[i] in specs;
      PiecesPart(Strip(tail), AtSpecs, specs[i]);
      assert Part(specs[i], Strip(tail)) by { PartFrom(specs[i], Strip(tail)); }
      PartOfPart(specs[i], Strip(tail), line);
      UncutPart(specs[i], line, AtBreaks);
    }
  }

  lemma PartFrom(r: string, s: string)
    requires forall c :: c in r ==> c in s
    ensures Part(r, s)
  {
  }

  lemma {:induction false} TargetsAreValid(lines: seq<string>, acs: seq<Criterion>)
    requires (forall i :: 0 <= i < |lines| ==> Uncut(lines[i], AtBreaks)) && TargetsOf(lines, acs).Some?
    ensures ValidTargets(TargetsOf(lines, acs).value, acs)
  {
    hide PlanOf, HasId, Uncut, CriterionId, Strip, AddTargets, ValidTarget;
    if lines != [] {
      TargetsAreValid(DropLast(lines), acs);
      if Strip(Last(lines)) != "" {
        PlanIsValid(Last(lines));
        var plan := PlanOf(Last(lines)).value;
        AddedAreValid(TargetsOf(DropLast(lines), acs).value, plan.ac, plan.specs, acs);
      }
    }
  }

  // --- the plan as it is written -----------------------------------------------------------------

  function SpecHead(kind: string): string {
    TypeOf(kind) + ":" + kind + ":"
  }

  function TargetLine(t: Target): string {
    "- " + t.ac + " -> " + SpecHead(t.kind) + t.target
  }

  function TargetLines(ts: seq<Target>): (r: seq<string>)
    ensures |r| == |ts| && forall i :: 0 <= i < |ts| ==> r[i] == TargetLine(ts[i])
  {
    seq(|ts|, i requires 0 <= i < |ts| => TargetLine(ts[i]))
  }

  lemma {:induction false} AtColonOf(a: string, b: string)
    requires ':' !in a
    ensures AtColon(a + ":" + b) == Some(Halves(a, b))
  {
    if a == "" {
      assert a + ":" + b == ":" + b;
    } else {
      assert (a + ":" + b)[1..] == a[1..] + ":" + b && [a[0]] + a[1..] == a;
      AtColonOf(a[1..], b);
    }
  }

  predicate TypeWord(s: string) {
    s != "" && forall i :: 0 <= i < |s| ==> 'A' <= s[i] <= 'Z' || s[i] == '_'
  }

  lemma KindWords(kind: string)
    requires kind in KINDS
    ensures SmallLetters(kind) && TypeOf(kind) in TYPES && TypeWord(TypeOf(kind))
  {
  }

  lemma SpecHeadInk(kind: string)
    requires kind in KINDS
    ensures var head := SpecHead(kind);
            && head != "" && !Space(head[0]) && head[0] != '`' && Last(head) == ':'
            && Uncut(head, AtBreaks) && Uncut(head, AtSpecs)
    ensures ':' !in kind && ':' !in TypeOf(kind) && Trimmed(kind) && Trimmed(TypeOf(kind)) && Lower(kind) == kind
  {
    hide KINDS, TYPES, TypeOf;
    KindWords(kind);
    LowerPlain(kind);
  }

  /** Reading `TYPE:kind:` followed by any text. */
  lemma SpecReads(ac: string, kind: string, u: string)
    requires kind in KINDS
    ensures TargetIn(ac, SpecHead(kind) + u) ==
        if TargetOk(kind, Strip(u)) then Good(Target(ac, kind, Strip(u))) else Bad
  {
    hide KINDS, TYPES, TypeOf, Strip, TargetOk, Trimmed, Space, Lower, AtColon;
    KindWords(kind);
    SpecHeadInk(kind);
    StripTrimmed(kind);
    StripTrimmed(TypeOf(kind));
    assert SpecHead(kind) + u == TypeOf(kind) + ":" + (kind + ":" + u);
    AtColonOf(TypeOf(kind), kind + ":" + u);
    AtColonOf(kind, u);
  }

  lemma {:induction false} TrimTicksConcat(a: string, b: string)
    requires a != "" && Last(a) != '`'
    ensures TrimTicks(a + b) == a + TrimTicks(b)
  {
    if b == "" {
      assert a + b == a;
    } else {
      assert DropLast(a + b) == a + DropLast(b) && Last(a + b) == Last(b);
      TrimTicksConcat(a, DropLast(b));
    }
  }

  lemma TrimTicksShortens(s: string)
    requires s != "" && Last(s) == '`'
    ensures |Strip(TrimTicks(s))| < |s|
  {
    TrimTicksNoLonger(DropLast(s));
  }

  lemma {:induction false} TrimTicksNoLonger(s: string)
    ensures |TrimTicks(s)| <= |s|
  {
    if s != "" && Last(s) == '`' { TrimTicksNoLonger(DropLast(s)); }
  }

  /** A written target reads back exactly when it does not end in a backtick. */
  lemma TargetReadsBack(t: Target)
    requires ValidTarget(t)
    ensures TargetOf(t.ac, SpecHead(t.kind) + t.target) == Good(t) <==> Last(t.target) != '`'
    ensures !TargetOf(t.ac, SpecHead(t.kind) + t.target).Skip?
  {
    hide KINDS, Strip, TargetOk, Space, SpecHead, CriterionId, Uncut, TargetIn;
    var head := SpecHead(t.kind);
    var spec := head + t.target;
    SpecHeadInk(t.kind);
    NonemptyTarget(t);
    assert spec[0] == head[0] && Last(spec) == Last(t.target);
    StripTrimmed(spec);
    assert DropTicks(spec) == spec;
    TrimTicksConcat(head, t.target);
    SpecReads(t.ac, t.kind, TrimTicks(t.target));
    if Last(t.target) == '`' {
      TrimTicksShortens(t.target);
    } else {
      StripTrimmed(t.target);
    }
  }

  lemma NonemptyTarget(t: Target)
    requires ValidTarget(t)
    ensures t.target != ""
  {
  }

  lemma ArrowReads(id: string, spec: string)
    requires Trimmed(spec) && Uncut(spec, AtSpecs)
    ensures PlanFrom(Item(id, "-> " + spec)) == Some(Plan(id, [spec]))
  {
    hide Strip, Trimmed, Uncut, SplitAt;
    assert ("-> " + spec)[..2] == "->" && ("-> " + spec)[2..] == " " + spec;
    SpaceBefore(spec);
    SplitUncut(spec, AtSpecs);
  }

  lemma SpecInk(t: Target)
    requires ValidTarget(t)
    ensures var spec := SpecHead(t.kind) + t.target;
        Trimmed(spec) && Uncut(spec, AtSpecs) && Uncut(spec, AtBreaks) && spec != ""
  {
    hide KINDS, TargetOk, Space, SpecHead, CriterionId, Uncut;
    var head := SpecHead(t.kind);
    SpecHeadInk(t.kind);
    NonemptyTarget(t);
    var spec := head + t.target;
    assert spec[0] == head[0] && Last(spec) == Last(t.target);
    UncutConcat(head, t.target, AtSpecs);
    UncutConcat(head, t.target, AtBreaks);
  }

  lemma PlanReadsBack(t: Target)
    requires ValidTarget(t)
    ensures PlanOf(TargetLine(t)) == Some(Plan(t.ac, [SpecHead(t.kind) + t.target])) && Strip(TargetLine(t)) != ""
  {
    hide Strip, SpecHead, Uncut, Trimmed, PlanOf, ValidTarget;
    assert CriterionId(t.ac) by { TargetNamesCriterion(t); }
    SpecInk(t);
    SpecLineReads(t.ac, SpecHead(t.kind) + t.target);
    Regroup("- ", t.ac, " -> ", SpecHead(t.kind), t.target);
  }

  lemma TargetNamesCriterion(t: Target)
    requires ValidTarget(t)
    ensures CriterionId(t.ac)
  {
  }

  lemma Regroup(a: string, b: string, c: string, d: string, e: string)
    ensures a + b + c + d + e == a + (b + (c + (d + e)))
  {
  }

  lemma SpecLineReads(id: string, spec: string)
    requires CriterionId(id) && Trimmed(spec) && Uncut(spec, AtSpecs)
    ensures var line := "- " + (id + (" -> " + spec)); PlanOf(line) == Some(Plan(id, [spec])) && Strip(line) != ""
  {
    hide Strip, Space, CriterionId, Uncut, ItemOf, PlanFrom, Trimmed, DropSpace, Digit;
    PrintableChars();
    ItemOfPrinted(id, " -> " + spec);
    assert " -> " + spec == " " + ("-> " + spec);
    OneBlank("-> " + spec);
    ArrowReads(id, spec);
    InkStays("- " + (id + (" -> " + spec)));
  }

  lemma UncutConcat(a: string, b: string, cut: Cut)
    requires Uncut(a, cut) && Uncut(b, cut)
    ensures Uncut(a + b, cut)
  {
    hide Cuts;
  }

  predicate NoTicks(ts: seq<Target>) {
    forall i :: 0 <= i < |ts| ==> ts[i].target != "" && Last(ts[i].target) != '`'
  }

  /** A written verification plan reads back exactly when no target ends in a backtick. */
  lemma {:induction false} TargetsReadBack(ts: seq<Target>, acs: seq<Criterion>)
    requires ValidTargets(ts, acs)
    ensures TargetsOf(TargetLines(ts), acs) == Some(ts) <==> NoTicks(ts)
  {
    hide ValidTarget, HasId, TargetLine, Strip, PlanOf, SpecHead, TargetOf;
    if ts != [] {
      var before, t := DropLast(ts), Last(ts);
      TargetsReadBack(before, acs);
      PlanReadsBack(t);
      TargetReadsBack(t);
      NonemptyTarget(t);
      assert ts == before + [t] && DropLast(TargetLines(ts)) == TargetLines(before);
      var read := TargetsOf(TargetLines(before), acs);
      OneSpec(if read.Some? then read.value else [], t.ac, SpecHead(t.kind) + t.target);
      assert NoTicks(ts) <==> NoTicks(before) && Last(t.target) != '`';
    }
  }

  lemma OneSpec(acc: seq<Target>, ac: string, spec: string)
    ensures AddTargets(acc, ac, [spec]) ==
        match TargetOf(ac, spec) { case Skip => Some(acc) case Bad => None case Good(t) => Some(acc + [t]) }
  {
    hide TargetOf;
    assert DropLast([spec]) == [];
  }
}
