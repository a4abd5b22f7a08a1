/** The regression budget of an Issue contract, as it is read and as it is written. */
module ContractBudget {
  import opened Prelude
  import opened Text
  import opened Budget
  import opened ContractFields

  datatype Entry = Entry(name: string, value: string)

  predicate WordChar(c: char) {
    'a' <= c <= 'z' || 'A' <= c <= 'Z' || c == '_'
  }

  function LeadWord(s: string): (r: string)
    ensures |r| <= |s| && r == s[..|r|]
  {
    if s != [] && WordChar(s[0]) then [s[0]] + LeadWord(s[1..]) else []
  }

  /** The operator a text starts with; the longer ones that begin alike are tried first. */
  function OperatorIn(s: string): (op: Option<string>)
    ensures op.Some? ==> StartsWith(s, op.value)
  {
    if StartsWith(s, "==") then Some("==")
    else if StartsWith(s, "=") then Some("=")
    else if StartsWith(s, "!=") then Some("!=")
    else if StartsWith(s, ">=") then Some(">=")
    else if StartsWith(s, "<=") then Some("<=")
    else if StartsWith(s, ">") then Some(">")
    else if StartsWith(s, "<") then Some("<")
    else None
  }

  predicate ValueChar(c: char) {
    'a' <= c <= 'z' || 'A' <= c <= 'Z' || Digit(c) || c in {'_', '.', '-'}
  }

  predicate ValueText(s: string) {
    s != "" && forall i :: 0 <= i < |s| ==> ValueChar(s[i])
  }

  predicate FieldChar(c: char) {
    'a' <= c <= 'z' || c == '_'
  }

  function LeadField(s: string): (r: string)
    ensures |r| <= |s| && r == s[..|r|]
  {
    if s != [] && FieldChar(s[0]) then [s[0]] + LeadField(s[1..]) else []
  }

  function TaggedFrom(field: string, s: string): Option<Limit> {
    var op := OperatorIn(s);
    if field == "" || op.None? || !ValueText(DropSpace(s[|op.value|..])) then None
    else Some(Tagged(field, if op.value == "=" then "==" else op.value, DropSpace(s[|op.value|..])))
  }

  function TaggedOf(v: string): Option<Limit> {
    if !StartsWith(v, "tagged:") then None
    else
      var t := DropSpace(v[7..]);
      TaggedFrom(LeadField(t), DropSpace(t[|LeadField(t)|..]))
  }

  function LimitIn(v: string): Option<Limit> {
    if v in {"allowed", "any", "unbounded"} then Some(AnyNumber)
    else if v in {"none", "no", "forbidden"} then Some(Forbidden)
    else if AllDigits(v) then Some(AtMost(Value(v)))
    else TaggedOf(v)
  }

  function LimitOf(text: string): Option<Limit> {
    LimitIn(Lower(TrimTicks(DropTicks(Strip(text)))))
  }

  function Canonical(name: string, keys: seq<string>): Option<string> {
    if keys == [] then None else if Lower(keys[0]) == Lower(name) then Some(keys[0]) else Canonical(name, keys[1..])
  }

  /** The key and what follows its separator. */
  function KeyLine(s: string): Option<Entry> {
    var name := LeadWord(s);
    var r := DropSpace(s[|name|..]);
    if name == "" || r == "" || r[0] !in {':', '='} || |r| == 1 then None else Some(Entry(name, Strip(r[1..])))
  }

  function UnBullet(s: string): string {
    if s != "" && s[0] in {'-', '*'} then DropSpace(s[1..]) else s
  }

  function RuleFrom(e: Entry): Option<Rule> {
    var key, limit := Canonical(e.name, BUDGET_KEYS), LimitOf(e.value);
    if key.None? || limit.None? then None else Some(Rule(key.value, limit.value))
  }

  function RuleOf(line: string): Option<Rule> {
    match KeyLine(UnBullet(DropSpace(line)))
    case None => None
    case Some(e) => RuleFrom(e)
  }

  /** `None` when a line is refused; a later line for a key replaces an earlier one. */
  function RulesOf(lines: seq<string>): Option<map<string, Limit>> {
    if lines == [] then Some(map[])
    else
      var before := RulesOf(DropLast(lines));
      if before.None? || Strip(Last(lines)) == "" then before
      else match RuleOf(Last(lines))
        case None => None
        case Some(r) => Some(before.value[r.key := r.limit])
  }

  function Filled(given: map<string, Limit>, keys: seq<string>): (r: seq<Rule>)
    ensures |r| == |keys|
    ensures forall i :: 0 <= i < |keys| ==>
        r[i] == Rule(keys[i], if keys[i] in given then given[keys[i]] else DefaultLimit(keys[i]))
  {
    seq(|keys|,
        i requires 0 <= i < |keys| => Rule(keys[i], if keys[i] in given then given[keys[i]] else DefaultLimit(keys[i])))
  }

  /** Lost contexts may never be unbounded, and a LOW-risk Issue may lose none. */
  predicate LostAllowed(lost: Limit, risk: string) {
    lost != AnyNumber && ((lost.Tagged? || (lost.AtMost? && lost.n > 0)) ==> risk != "LOW")
  }

  function BudgetIn(text: string, risk: string): Option<seq<Rule>> {
    var given := RulesOf(SplitAt(text, AtBreaks));
    if given.None? || !LostAllowed(Filled(given.value, BUDGET_KEYS)[0].limit, risk) then None
    else Some(Filled(given.value, BUDGET_KEYS))
  }

  method ParseBudget(text: string, risk: string) returns (rules: Option<seq<Rule>>)
    ensures rules == BudgetIn(text, risk)
  {
    hide SplitAt, RuleOf, Strip, LostAllowed, BUDGET_KEYS;
    var lines := SplitAt(text, AtBreaks);
    var given: map<string, Limit> := map[];
    var ok := true;
    for i := 0 to |lines|
      invariant (if ok then Some(given) else None) == RulesOf(lines[..i])
    {
      assert DropLast(lines[..i + 1]) == lines[..i];
      if Strip(lines[i]) == "" { continue; }
      match RuleOf(lines[i])
      case None => ok := false;
      case Some(r) => given := given[r.key := r.limit];
    }
    assert lines[..|lines|] == lines;
    assert |BUDGET_KEYS| == 6 by { SixKeys(); }
    if !ok { return None; }
    ghost var stated := given;
    for i := 0 to |BUDGET_KEYS|
      invariant forall k :: k in BUDGET_KEYS[..i] ==> k in given
      invariant forall k :: k in given <==> k in stated || k in BUDGET_KEYS[..i]
      invariant forall k :: k in given ==> given[k] == if k in stated then stated[k] else DefaultLimit(k)
    {
      assert BUDGET_KEYS[..i + 1] == BUDGET_KEYS[..i] + [BUDGET_KEYS[i]];
      if BUDGET_KEYS[i] !in given { given := given[BUDGET_KEYS[i] := DefaultLimit(BUDGET_KEYS[i])]; }
    }
    assert BUDGET_KEYS[..|BUDGET_KEYS|] == BUDGET_KEYS;
    assert Filled(given, BUDGET_KEYS) == Filled(stated, BUDGET_KEYS);
    rules := if LostAllowed(Filled(given, BUDGET_KEYS)[0].limit, risk) then Some(Filled(given, BUDGET_KEYS)) else None;
  }

  lemma SixKeys()
    ensures |BUDGET_KEYS| == 6
  {
  }

  const COMPARISONS: seq<string> := ["==", "!=", ">=", "<=", ">", "<"]

  ghost predicate ValidLimit(l: Limit) {
    l.Tagged? ==>
      && l.field != "" && (forall i :: 0 <= i < |l.field| ==> FieldChar(l.field[i]))
      && l.op in COMPARISONS
      && ValueText(l.value) && NoCapitals(l.value)
  }

  /** A budget as it is kept: one rule for every key, in order. */
  ghost predicate ValidBudget(rules: seq<Rule>) {
    |rules| == |BUDGET_KEYS| && forall i :: 0 <= i < |rules| ==>
        rules[i].key == BUDGET_KEYS[i] && ValidLimit(rules[i].limit)
  }

  lemma {:induction false} LeadFieldChars(s: string)
    ensures forall i :: 0 <= i < |LeadField(s)| ==> FieldChar(LeadField(s)[i])
  {
    if s != [] && FieldChar(s[0]) { LeadFieldChars(s[1..]); }
  }

  lemma OperatorsAreComparisons(s: string)
    requires OperatorIn(s).Some?
    ensures (if OperatorIn(s).value == "=" then "==" else OperatorIn(s).value) in COMPARISONS
  {
    hide StartsWith;
  }

  lemma LowerHasNoCapitals(s: string, c: char)
    requires c in Lower(s)
    ensures !('A' <= c <= 'Z')
  {
    var i :| 0 <= i < |Lower(s)| && Lower(s)[i] == c;
    LowerAt(s, i);
  }

  ghost predicate NoCapitals(s: string) {
    forall i :: 0 <= i < |s| ==> !('A' <= s[i] <= 'Z')
  }

  lemma TaggedFromIsValid(field: string, s: string)
    requires TaggedFrom(field, s).Some? && NoCapitals(s) && forall i :: 0 <= i < |field| ==> FieldChar(field[i])
    ensures ValidLimit(TaggedFrom(field, s).value)
  {
    hide Space, FieldChar, ValueText, COMPARISONS, Part, DropSpace, StartsWith, OperatorIn;
    OperatorsAreComparisons(s);
    var n := |OperatorIn(s).value|;
    assert n <= |s| by { PrefixFits(s, OperatorIn(s).value); }
    TailPart(s, n);
    TailPart(s[n..], 0);
    PartOfPart(DropSpace(s[n..]), s[n..], s);
    PartPlain(DropSpace(s[n..]), s);
  }

  lemma PrefixFits(s: string, prefix: string)
    requires StartsWith(s, prefix)
    ensures |prefix| <= |s|
  {
  }

  lemma TaggedIsValid(v: string)
    requires TaggedOf(v).Some? && NoCapitals(v)
    ensures ValidLimit(TaggedOf(v).value)
  {
    hide Space, FieldChar, Part, DropSpace, TaggedFrom, ValidLimit;
    PrefixFits(v, "tagged:");
    hide StartsWith;
    var t := DropSpace(v[7..]);
    var rest := t[|LeadField(t)|..];
    LeadFieldChars(t);
    TailPart(v, 7);
    TailPart(v[7..], 0);
    TailPart(t, |LeadField(t)|);
    TailPart(rest, 0);
    PartOfPart(t, v[7..], v);
    PartOfPart(rest, t, v);
    PartOfPart(DropSpace(rest), rest, v);
    PartPlain(DropSpace(rest), v);
    TaggedFromIsValid(LeadField(t), DropSpace(rest));
  }

  lemma PartPlain(r: string, s: string)
    requires Part(r, s) && NoCapitals(s)
    ensures NoCapitals(r)
  {
    forall i | 0 <= i < |r| ensures !('A' <= r[i] <= 'Z') { assert r[i] in s; }
  }

  lemma LimitIsValid(text: string)
    requires LimitOf(text).Some?
    ensures ValidLimit(LimitOf(text).value)
  {
    hide Strip, TaggedOf, Value, ValidLimit;
    var u := TrimTicks(DropTicks(Strip(text)));
    var v := Lower(u);
    if LimitOf(text) == TaggedOf(v) && TaggedOf(v).Some? {
      forall i | 0 <= i < |v| ensures !('A' <= v[i] <= 'Z') { LowerHasNoCapitals(u, v[i]); }
      TaggedIsValid(v);
    } else {
      UntaggedIsValid(LimitOf(text).value);
    }
  }

  lemma UntaggedIsValid(l: Limit)
    requires !l.Tagged?
    ensures ValidLimit(l)
  {
  }

  lemma {:induction false} RulesAreValid(lines: seq<string>)
    requires RulesOf(lines).Some?
    ensures forall k :: k in RulesOf(lines).value ==> ValidLimit(RulesOf(lines).value[k])
  {
    hide ValidLimit, LimitOf, Strip, KeyLine, UnBullet, Canonical;
    if lines != [] {
      RulesAreValid(DropLast(lines));
      if Strip(Last(lines)) != "" { LimitIsValid(KeyLine(UnBullet(DropSpace(Last(lines)))).value.value); }
    }
  }

  lemma FilledIsValid(given: map<string, Limit>)
    requires forall k :: k in given ==> ValidLimit(given[k])
    ensures ValidBudget(Filled(given, BUDGET_KEYS))
  {
    hide ValidLimit, BUDGET_KEYS;
    forall i | 0 <= i < |BUDGET_KEYS| ensures ValidLimit(Filled(given, BUDGET_KEYS)[i].limit) {
      if BUDGET_KEYS[i] !in given { UntaggedIsValid(DefaultLimit(BUDGET_KEYS[i])); }
    }
  }

  lemma BudgetIsValid(text: string, risk: string)
    requires BudgetIn(text, risk).Some?
    ensures ValidBudget(BudgetIn(text, risk).value) && BudgetIn(text, risk).value != []
    ensures LostAllowed(BudgetIn(text, risk).value[0].limit, risk)
  {
    hide SplitAt, ValidLimit, LostAllowed, BUDGET_KEYS, RulesOf, Filled, ValidBudget;
    SixKeys();
    var lines := SplitAt(text, AtBreaks);
    RulesAreValid(lines);
    FilledIsValid(RulesOf(lines).value);
  }

  // --- the budget as it is written ---------------------------------------------------------------

  function LimitText(l: Limit): string {
    match l
    case AnyNumber => "allowed"
    case Forbidden => "none"
    case AtMost(n) => Decimal(n)
    case Tagged(field, op, value) => "tagged:" + field + op + value
  }

  function RuleLine(r: Rule): string {
    r.key + ": " + LimitText(r.limit)
  }

  function RuleLines(rules: seq<Rule>): (r: seq<string>)
    ensures |r| == |rules| && forall i :: 0 <= i < |rules| ==> r[i] == RuleLine(rules[i])
  {
    seq(|rules|, i requires 0 <= i < |rules| => RuleLine(rules[i]))
  }

  /** A text that reading leaves as it is: no capitals, and nothing at its ends to take away. */
  ghost predicate Settled(s: string) {
    && s != "" && !Space(s[0]) && !Space(Last(s)) && s[0] != '`' && Last(s) != '`'
    && Uncut(s, AtBreaks) && NoCapitals(s)
  }

  lemma SettledStays(s: string)
    requires Settled(s)
    ensures Lower(TrimTicks(DropTicks(Strip(s)))) == s
  {
    hide Space, Strip, Cuts;
    StripTrimmed(s);
    LowerPlain(s);
  }

  lemma ComparisonChars(op: string)
    requires op in COMPARISONS
    ensures op != "" && !FieldChar(op[0]) && !Space(op[0]) && Uncut(op, AtBreaks) && NoCapitals(op)
  {
  }

  lemma OperatorReads(op: string, value: string)
    requires op in COMPARISONS && value != "" && value[0] != '='
    ensures OperatorIn(op + value) == Some(op)
  {
    var s := op + value;
    assert s[..|op|] == op && s[0] == op[0] && s[|op|] == value[0];
  }

  lemma {:induction false} LeadFieldOf(field: string, rest: string)
    requires (forall i :: 0 <= i < |field| ==> FieldChar(field[i])) && rest != "" && !FieldChar(rest[0])
    ensures LeadField(field + rest) == field
  {
    hide FieldChar;
    if field == "" {
      assert field + rest == rest;
    } else {
      assert (field + rest)[1..] == field[1..] + rest;
      LeadFieldOf(field[1..], rest);
    }
  }

  lemma FieldInk(field: string)
    requires field != "" && forall i :: 0 <= i < |field| ==> FieldChar(field[i])
    ensures !Space(field[0]) && Uncut(field, AtBreaks) && NoCapitals(field)
  {
  }

  lemma ValueInk(value: string)
    requires ValueText(value)
    ensures value != "" && !Space(value[0]) && !Space(Last(value)) && Last(value) != '`' && value[0] != '='
    ensures Uncut(value, AtBreaks)
  {
  }

  lemma TaggedFromReads(l: Limit)
    requires l.Tagged? && ValidLimit(l)
    ensures TaggedFrom(l.field, l.op + l.value) == Some(l)
  {
    hide Space, FieldChar, ValueText, COMPARISONS, OperatorIn, DropSpace, Uncut, NoCapitals;
    ValueInk(l.value);
    OperatorReads(l.op, l.value);
    assert (l.op + l.value)[|l.op|..] == l.value;
    InkFirst(l.value);
    EqualsIsNone();
  }

  lemma TaggedReadsBack(l: Limit)
    requires l.Tagged? && ValidLimit(l)
    ensures TaggedOf(LimitText(l)) == Some(l)
  {
    hide Space, FieldChar, ValueText, COMPARISONS, OperatorIn, LeadField, DropSpace, Uncut, NoCapitals, TaggedFrom;
    FieldInk(l.field);
    ComparisonChars(l.op);
    TaggedFromReads(l);
    var s := l.op + l.value;
    var t := l.field + s;
    assert s[0] == l.op[0] && t[0] == l.field[0];
    assert LimitText(l) == "tagged:" + t;
    assert ("tagged:" + t)[..7] == "tagged:" && ("tagged:" + t)[7..] == t;
    InkFirst(t);
    LeadFieldOf(l.field, s);
    assert t[|l.field|..] == s;
    InkFirst(s);
  }

  lemma EqualsIsNone()
    ensures "=" !in COMPARISONS
  {
  }

  lemma TaggedIsSettled(l: Limit)
    requires l.Tagged? && ValidLimit(l)
    ensures Settled(LimitText(l)) && LimitText(l)[0] == 't' && |LimitText(l)| > 6 && LimitText(l)[6] == ':'
  {
    hide Space, FieldChar, ValueText, COMPARISONS, Cuts, Break;
    FieldInk(l.field);
    ValueInk(l.value);
    ComparisonChars(l.op);
    TaggedWord();
    var a, s := "tagged:" + l.field, l.op + l.value;
    var text := LimitText(l);
    assert text == a + s && Last(text) == Last(l.value) && text[..7] == "tagged:";
    assert text[0] == "tagged:"[0] && text[6] == "tagged:"[6];
    PlainConcat("tagged:", l.field);
    PlainConcat(l.op, l.value);
    PlainConcat(a, s);
  }

  lemma TaggedWord()
    ensures Uncut("tagged:", AtBreaks) && NoCapitals("tagged:") && !Space('t')
  {
  }

  lemma PlainConcat(a: string, b: string)
    requires Uncut(a, AtBreaks) && NoCapitals(a) && Uncut(b, AtBreaks) && NoCapitals(b)
    ensures Uncut(a + b, AtBreaks) && NoCapitals(a + b)
  {
    hide Cuts;
  }

  lemma DecimalIsSettled(n: nat)
    ensures Settled(Decimal(n))
  {
    hide Decimal;
    assert Digit(Decimal(n)[0]) && Digit(Last(Decimal(n)));
  }

  lemma WordsAreSettled()
    ensures Settled("allowed") && Settled("none")
  {
  }

  lemma LimitReadsBack(l: Limit)
    requires ValidLimit(l)
    ensures LimitOf(LimitText(l)) == Some(l) && Settled(LimitText(l))
  {
    hide Settled, Strip, TaggedOf, ValidLimit, Decimal, Value, DropTicks, TrimTicks, Lower;
    match l
    case AnyNumber => WordsAreSettled(); SettledStays("allowed");
    case Forbidden => WordsAreSettled(); SettledStays("none");
    case AtMost(n) =>
      DecimalIsSettled(n);
      SettledStays(Decimal(n));
      ValueOfDecimal(n);
      assert Digit(Decimal(n)[0]);
    case Tagged(_, _, _) =>
      TaggedReadsBack(l);
      TaggedIsSettled(l);
      SettledStays(LimitText(l));
      assert !Digit(LimitText(l)[0]);
  }

  lemma {:induction false} LeadWordOf(name: string, rest: string)
    requires (forall i :: 0 <= i < |name| ==> WordChar(name[i])) && rest != "" && !WordChar(rest[0])
    ensures LeadWord(name + rest) == name
  {
    hide WordChar;
    if name == "" {
      assert name + rest == rest;
    } else {
      assert (name + rest)[1..] == name[1..] + rest;
      LeadWordOf(name[1..], rest);
    }
  }

  lemma KeyWords(key: string)
    requires key in BUDGET_KEYS
    ensures key != "" && forall i :: 0 <= i < |key| ==> WordChar(key[i])
  {
  }

  lemma WordInk(key: string)
    requires key != "" && forall i :: 0 <= i < |key| ==> WordChar(key[i])
    ensures !Space(key[0]) && key[0] !in {'-', '*'} && Uncut(key, AtBreaks)
  {
  }

  lemma {:induction false} CanonicalKey(keys: seq<string>, i: nat)
    requires i < |keys| && forall k :: 0 <= k < |keys| ==> keys[k] != ""
    requires forall j, k :: 0 <= j < k < |keys| ==> LowerChar(keys[j][0]) != LowerChar(keys[k][0])
    ensures Canonical(keys[i], keys) == Some(keys[i])
  {
    hide LowerChar;
    if i > 0 {
      LowerAt(keys[0], 0);
      LowerAt(keys[i], 0);
      assert LowerChar(keys[0][0]) != LowerChar(keys[i][0]);
      CanonicalKey(keys[1..], i - 1);
    }
  }

  lemma KeysDifferEarly()
    ensures forall k :: 0 <= k < |BUDGET_KEYS| ==> BUDGET_KEYS[k] != ""
    ensures forall j, k :: 0 <= j < k < |BUDGET_KEYS| ==> LowerChar(BUDGET_KEYS[j][0]) != LowerChar(BUDGET_KEYS[k][0])
  {
  }

  lemma KeyLineReadsBack(key: string, text: string)
    requires key in BUDGET_KEYS && Trimmed(text) && text != ""
    ensures KeyLine(UnBullet(DropSpace(key + ": " + text))) == Some(Entry(key, text)) && Strip(key + ": " + text) != ""
  {
    hide Space, WordChar, Strip, Trimmed, BUDGET_KEYS;
    KeyWords(key);
    WordInk(key);
    PrintableChars();
    ColonIsNoWord();
    var line, rest := key + ": " + text, ": " + text;
    assert line == key + rest;
    InkFirst(line);
    LeadWordOf(key, rest);
    assert line[|key|..] == rest && rest[1..] == " " + text;
    InkFirst(rest);
    SpaceBefore(text);
    InkStays(line);
  }

  lemma ColonIsNoWord()
    ensures !WordChar(':')
  {
  }

  lemma RuleReadsBack(r: Rule)
    requires r.key in BUDGET_KEYS && ValidLimit(r.limit)
    ensures RuleOf(RuleLine(r)) == Some(r) && Strip(RuleLine(r)) != ""
  {
    hide LimitOf, LimitText, ValidLimit, KeyLine, UnBullet, Strip, Space, BUDGET_KEYS, Canonical;
    LimitReadsBack(r.limit);
    var text := LimitText(r.limit);
    KeyLineReadsBack(r.key, text);
    KeysDifferEarly();
    var i :| 0 <= i < |BUDGET_KEYS| && BUDGET_KEYS[i] == r.key;
    CanonicalKey(BUDGET_KEYS, i);
  }

  lemma {:induction false} RulesReadBack(rules: seq<Rule>)
    requires forall i :: 0 <= i < |rules| ==> rules[i].key in BUDGET_KEYS && ValidLimit(rules[i].limit)
    requires OneRulePerKey(rules)
    ensures var given := RulesOf(RuleLines(rules));
            given.Some? && forall i :: 0 <= i < |rules| ==>
                rules[i].key in given.value && given.value[rules[i].key] == rules[i].limit
  {
    hide RuleOf, RuleLine, ValidLimit, Strip, BUDGET_KEYS;
    if rules != [] {
      RulesReadBack(DropLast(rules));
      RuleReadsBack(Last(rules));
      assert DropLast(RuleLines(rules)) == RuleLines(DropLast(rules));
    }
  }

  lemma KeysAreDistinct()
    ensures forall i, j :: 0 <= i < j < |BUDGET_KEYS| ==> BUDGET_KEYS[i] != BUDGET_KEYS[j]
  {
    KeysDifferEarly();
  }

  lemma RuleLineInk(r: Rule)
    requires r.key in BUDGET_KEYS && ValidLimit(r.limit)
    ensures var line := RuleLine(r); line != "" && !Space(Last(line)) && Uncut(line, AtBreaks) && line[0] == r.key[0]
  {
    hide LimitText, ValidLimit, Space, WordChar, BUDGET_KEYS, LimitOf, Cuts;
    KeyWords(r.key);
    WordInk(r.key);
    LimitReadsBack(r.limit);
    ColonUnbroken();
    var text := LimitText(r.limit);
    assert RuleLine(r) == r.key + ": " + text && Last(RuleLine(r)) == Last(text);
    assert Uncut(r.key + ": ", AtBreaks);
  }

  lemma ColonUnbroken()
    ensures Uncut(": ", AtBreaks)
  {
  }

  /** A written budget reads back as it is. */
  lemma BudgetReadsBack(rules: seq<Rule>, risk: string)
    requires ValidBudget(rules) && rules != [] && LostAllowed(rules[0].limit, risk)
    ensures BudgetIn(Join(RuleLines(rules), "\n"), risk) == Some(rules)
  {
    hide SplitAt, ValidLimit, LostAllowed, BUDGET_KEYS, RulesOf, RuleLine, Uncut, Cuts;
    KeysAreDistinct();
    forall i | 0 <= i < |rules| ensures Uncut(RuleLines(rules)[i], AtBreaks) { RuleLineInk(rules[i]); }
    CommaCuts();
    SplitJoined(RuleLines(rules), AtBreaks);
    RulesReadBack(rules);
    var given := RulesOf(RuleLines(rules)).value;
    assert Filled(given, BUDGET_KEYS) == rules;
  }
}
