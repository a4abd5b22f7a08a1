/** Tagged budget rules. The scope check never compares two of them; this is exactly when one stays within another. */
module TaggedRules {
  import opened Prelude
  import opened Budget
  import opened ContractBudget

  const OPERATORS: set<string> := {"==", "!=", "<", "<=", ">", ">="}

  // --- numbers and how they print ------------------------------------------------------------------

  /** `numeric` reads a text as a number, `prints` tells how a number may be printed. */
  datatype Notation = Notation(numeric: string -> Option<real>, prints: (real, string) -> bool)

  ghost predicate Between(n: Notation, p: real, q: real) {
    exists r, t :: p < r < q && n.prints(r, t)
  }

  /** As decimal notation is: what is printed reads back and starts with a sign or a digit, what can be read can be
      printed, and the numbers that can be printed lie densely. */
  ghost predicate Lawful(n: Notation) {
    && (forall r, t :: n.prints(r, t) ==> n.numeric(t) == Some(r) && t != "" && (t[0] == '-' || '0' <= t[0] <= '9'))
    && (forall t :: n.numeric(t).Some? ==> exists u :: n.prints(n.numeric(t).value, u))
    && (forall p: real, q: real :: p < q ==> Between(n, p, q))
  }

  /** Every number in the context carries a text it prints as. */
  ghost predicate Genuine(c: Context, n: Notation) {
    forall f :: f in c && c[f].Number? ==> n.prints(c[f].r, c[f].text)
  }

  ghost predicate GenuineRows(rows: seq<Context>, n: Notation) {
    forall c :: c in rows ==> Genuine(c, n)
  }

  // --- the condition -------------------------------------------------------------------------------

  /** A tag as the contract's grammar has it. */
  ghost predicate Tag(l: Limit) {
    l.Tagged? && ValidLimit(l)
  }

  lemma TagParts(l: Limit)
    requires Tag(l)
    ensures l.op in OPERATORS && l.value != "" && forall i :: 0 <= i < |l.value| ==> l.value[i] != '\0'
  {
  }

  /** In an order without ends or gaps, everything `op1` admits at one constant is admitted by `op2` at another; `less`
      and `equal` compare the first constant with the second. */
  predicate OpCovers(op1: string, op2: string, less: bool, equal: bool) {
    match op1
    case "==" => Compare(op2, less, equal)
    case "!=" => op2 == "!=" && equal
    case "<" => op2 in {"<", "<=", "!="} && (less || equal)
    case "<=" => (op2 in {"<", "!="} && less) || (op2 == "<=" && (less || equal))
    case ">" => op2 in {">", ">=", "!="} && !less
    case _ => (op2 in {">", "!="} && !less && !equal) || (op2 == ">=" && !less)
  }

  predicate FlagsCovered(op1: string, v1: bool, op2: string, v2: bool) {
    && (FlagMatches(true, op1, v1) ==> FlagMatches(true, op2, v2))
    && (FlagMatches(false, op1, v1) ==> FlagMatches(false, op2, v2))
  }

  predicate AdmitsNumber(l: Limit, r: real, text: string, n: Notation)
    requires l.Tagged?
  {
    if n.numeric(l.value).Some? then NumberMatches(r, l.op, n.numeric(l.value).value)
    else TextMatches(text, l.op, l.value)
  }

  /** Inclusion among numbers. Against two numeric constants they are compared as numbers, against two words as texts,
      like the texts; against a number and a word it depends on how numbers print (`MixedPairs`). */
  ghost predicate NumbersUnder(child: Limit, root: Limit, n: Notation)
    requires child.Tagged? && root.Tagged?
  {
    match (n.numeric(child.value), n.numeric(root.value))
    case (Some(a), Some(b)) => OpCovers(child.op, root.op, a < b, a == b)
    case (None, None) => true
    case _ => forall r, t :: n.prints(r, t) && AdmitsNumber(child, r, t, n) ==> AdmitsNumber(root, r, t, n)
  }

  /** The same field, and inclusion of what the two tags admit: among texts, among flags, among numbers. */
  ghost predicate TagCovers(child: Limit, root: Limit, n: Notation)
    requires child.Tagged? && root.Tagged?
  {
    && child.field == root.field
    && OpCovers(child.op, root.op, TextBefore(child.value, root.value), child.value == root.value)
    && FlagsCovered(child.op, Truthy(child.value), root.op, Truthy(root.value))
    && NumbersUnder(child, root, n)
  }

  // --- numbers -----------------------------------------------------------------------------------

  lemma PrintedBetween(n: Notation, p: real, q: real) returns (r: real, t: string)
    requires Lawful(n) && p < q
    ensures p < r < q && n.prints(r, t)
  {
    assert Between(n, p, q);
    r, t :| p < r < q && n.prints(r, t);
  }

  lemma PrintedConstant(n: Notation, value: string) returns (t: string)
    requires Lawful(n) && n.numeric(value).Some?
    ensures n.prints(n.numeric(value).value, t)
  {
    t :| n.prints(n.numeric(value).value, t);
  }

  ghost predicate NumbersKept(n: Notation, op1: string, a: real, op2: string, b: real) {
    forall r, t :: n.prints(r, t) && NumberMatches(r, op1, a) ==> NumberMatches(r, op2, b)
  }

  predicate NumberKept(r: real, op1: string, a: real, op2: string, b: real) {
    NumberMatches(r, op1, a) ==> NumberMatches(r, op2, b)
  }

  lemma NumberCovered(op1: string, a: real, op2: string, b: real, r: real)
    requires op1 in OPERATORS && op2 in OPERATORS && OpCovers(op1, op2, a < b, a == b)
    ensures NumberKept(r, op1, a, op2, b)
  {
  }

  /** The constants themselves, one number below them, one above and one between tell any two operators apart. */
  lemma NumbersTell(op1: string, a: real, op2: string, b: real, low: real, mid: real, high: real)
    requires op1 in OPERATORS && op2 in OPERATORS && low < a && low < b && high > a && high > b
    requires a < b ==> a < mid < b
    requires b < a ==> b < mid < a
    requires NumberKept(low, op1, a, op2, b) && NumberKept(mid, op1, a, op2, b) && NumberKept(high, op1, a, op2, b)
    requires NumberKept(a, op1, a, op2, b) && NumberKept(b, op1, a, op2, b)
    ensures OpCovers(op1, op2, a < b, a == b)
  {
  }

  lemma NumbersCovered(n: Notation, op1: string, x: string, op2: string, y: string)
    requires Lawful(n) && op1 in OPERATORS && op2 in OPERATORS && n.numeric(x).Some? && n.numeric(y).Some?
    ensures var a, b := n.numeric(x).value, n.numeric(y).value;
            NumbersKept(n, op1, a, op2, b) <==> OpCovers(op1, op2, a < b, a == b)
  {
    hide OpCovers, NumberMatches, OPERATORS, Lawful;
    var a, b := n.numeric(x).value, n.numeric(y).value;
    if OpCovers(op1, op2, a < b, a == b) {
      forall r, t | n.prints(r, t) && NumberMatches(r, op1, a) ensures NumberMatches(r, op2, b) {
        NumberCovered(op1, a, op2, b, r);
      }
    }
    if NumbersKept(n, op1, a, op2, b) {
      var ta := PrintedConstant(n, x);
      var tb := PrintedConstant(n, y);
      var least, most := if a < b then a else b, if a < b then b else a;
      var low, tl := PrintedBetween(n, least - 1.0, least);
      var high, th := PrintedBetween(n, most, most + 1.0);
      var mid, tm := low, tl;
      if a != b { mid, tm := PrintedBetween(n, least, most); }
      assert NumberKept(low, op1, a, op2, b) && NumberKept(mid, op1, a, op2, b) && NumberKept(high, op1, a, op2, b);
      NumbersTell(op1, a, op2, b, low, mid, high);
    }
  }

  // --- texts -------------------------------------------------------------------------------------

  lemma {:induction false} TextOrder(s: string, t: string)
    ensures TextBefore(s, t) ==> s != t && !TextBefore(t, s)
    ensures s != t ==> TextBefore(s, t) || TextBefore(t, s)
  {
    if s != [] && t != [] {
      TextOrder(s[1..], t[1..]);
      assert s == [s[0]] + s[1..] && t == [t[0]] + t[1..];
    }
  }

  lemma {:induction false} TextOrderIsTransitive(s: string, t: string, u: string)
    requires TextBefore(s, t) && TextBefore(t, u)
    ensures TextBefore(s, u)
  {
    if s != [] { if s[0] == t[0] && t[0] == u[0] { TextOrderIsTransitive(s[1..], t[1..], u[1..]); } }
  }

  /** Right after a text comes that text with the least character appended. */
  lemma {:induction false} TextSuccessor(s: string, t: string)
    ensures TextBefore(s, s + ['\0'])
    ensures TextBefore(s, t) ==> t == s + ['\0'] || TextBefore(s + ['\0'], t)
  {
    if s != [] {
      assert (s + ['\0'])[1..] == s[1..] + ['\0'];
      TextSuccessor(s[1..], if t == [] then [] else t[1..]);
      if t != [] { assert t == [t[0]] + t[1..]; }
    } else if t != [] {
      assert t == [t[0]] + t[1..];
    }
  }

  lemma TextsCovered(op1: string, x: string, op2: string, y: string)
    requires op1 in OPERATORS && op2 in OPERATORS && x != "" && y != ""
    requires forall i :: 0 <= i < |x| ==> x[i] != '\0'
    requires forall i :: 0 <= i < |y| ==> y[i] != '\0'
    ensures (forall s :: TextMatches(s, op1, x) ==> TextMatches(s, op2, y))
        <==> OpCovers(op1, op2, TextBefore(x, y), x == y)
  {
    if OpCovers(op1, op2, TextBefore(x, y), x == y) {
      forall s | TextMatches(s, op1, x) ensures TextMatches(s, op2, y) { TextCovered(op1, x, op2, y, s); }
    }
    if forall s :: TextMatches(s, op1, x) ==> TextMatches(s, op2, y) {
      var x', y' := x + ['\0'], y + ['\0'];
      assert x'[|x|] == '\0' && y'[|y|] == '\0';
      forall s | s == "" || s == x || s == y || s == x' || s == y' ensures Kept(s, op1, x, op2, y) {}
      TextOrder(x, y);
      TextOrder(x, x);
      TextOrder(y, y);
      TextSuccessor(x, y);
      TextSuccessor(y, x);
      TextOrder(x, x');
      TextOrder(y, y');
      TextOrder(x', y);
      TextOrder(y', x);
      if TextBefore(x, y) { TextOrderIsTransitive(x, y, y'); TextOrder(x, y'); }
      if TextBefore(y, x) { TextOrderIsTransitive(y, x, x'); TextOrder(y, x'); }
      Witnessed(op1, x, op2, y);
    }
  }

  lemma TextCovered(op1: string, x: string, op2: string, y: string, s: string)
    requires op1 in OPERATORS && op2 in OPERATORS && OpCovers(op1, op2, TextBefore(x, y), x == y)
    requires TextMatches(s, op1, x)
    ensures TextMatches(s, op2, y)
  {
    TextOrder(x, y);
    TextOrder(s, x);
    TextOrder(s, y);
    if TextBefore(s, x) && TextBefore(x, y) { TextOrderIsTransitive(s, x, y); }
    if TextBefore(y, x) && TextBefore(x, s) { TextOrderIsTransitive(y, x, s); }
  }

  predicate Kept(s: string, op1: string, x: string, op2: string, y: string) {
    TextMatches(s, op1, x) ==> TextMatches(s, op2, y)
  }

  /** The five texts that tell any two operators apart: the least, the two constants, and their successors. */
  lemma Witnessed(op1: string, x: string, op2: string, y: string)
    requires op1 in OPERATORS && op2 in OPERATORS && x != "" && y != ""
    requires Kept("", op1, x, op2, y) && Kept(x, op1, x, op2, y) && Kept(y, op1, x, op2, y)
    requires Kept(x + ['\0'], op1, x, op2, y) && Kept(y + ['\0'], op1, x, op2, y)
    requires TextBefore(x, x + ['\0']) && TextBefore(y, y + ['\0']) && !TextBefore(x + ['\0'], x)
    requires !TextBefore(y + ['\0'], y)
    requires !TextBefore(x, x) && !TextBefore(y, y)
    requires TextBefore(x, y) ==>
        !TextBefore(y, x) && x != y && TextBefore(x + ['\0'], y) && TextBefore(x, y + ['\0'])
            && !TextBefore(y + ['\0'], x)
    requires TextBefore(y, x) ==>
        x != y && TextBefore(y + ['\0'], x) && TextBefore(y, x + ['\0']) && !TextBefore(x + ['\0'], y)
    requires x != y ==> TextBefore(x, y) || TextBefore(y, x)
    ensures OpCovers(op1, op2, TextBefore(x, y), x == y)
  {
    assert x != x + ['\0'] && y != y + ['\0'] && TextBefore("", x) && TextBefore("", y);
    hide TextBefore;
    match op1
    case "==" =>
    case "!=" =>
    case "<" =>
    case "<=" =>
    case ">" =>
    case _ =>
  }

  // --- a number and a word -------------------------------------------------------------------------

  /** A word that comes after everything a number prints as: it starts with a letter or an underscore. */
  predicate Word(value: string) {
    value != "" && value[0] > '9'
  }

  lemma PrintsComeFirst(n: Notation, r: real, t: string, word: string)
    requires Lawful(n) && n.prints(r, t) && Word(word)
    ensures TextBefore(t, word) && t != word
  {
  }

  /** Every comparison with a number admits some number and refuses some. */
  lemma SomeNumber(n: Notation, op: string, x: string) returns (r: real, t: string, r': real, t': string)
    requires Lawful(n) && op in OPERATORS && n.numeric(x).Some?
    ensures n.prints(r, t) && NumberMatches(r, op, n.numeric(x).value)
    ensures n.prints(r', t') && !NumberMatches(r', op, n.numeric(x).value)
  {
    hide Lawful;
    var a := n.numeric(x).value;
    var ta := PrintedConstant(n, x);
    var low, tl := PrintedBetween(n, a - 1.0, a);
    var high, th := PrintedBetween(n, a, a + 1.0);
    match op
    case "==" => r, t, r', t' := a, ta, low, tl;
    case "!=" => r, t, r', t' := low, tl, a, ta;
    case "<" => r, t, r', t' := low, tl, a, ta;
    case "<=" => r, t, r', t' := a, ta, high, th;
    case ">" => r, t, r', t' := high, th, a, ta;
    case _ => r, t, r', t' := a, ta, low, tl;
  }

  /** Where one constant is a number and the other such a word, numbers compare as texts that come before the word. */
  lemma MixedPairs(child: Limit, root: Limit, n: Notation)
    requires Lawful(n) && Tag(child) && Tag(root)
    ensures n.numeric(child.value).Some? && n.numeric(root.value).None? && Word(root.value) ==>
            (NumbersUnder(child, root, n) <==> root.op in {"<", "<=", "!="})
    ensures n.numeric(child.value).None? && n.numeric(root.value).Some? && Word(child.value) ==>
            (NumbersUnder(child, root, n) <==> child.op in {"==", ">", ">="})
  {
    hide Lawful, NumberMatches, Word, TextBefore, OPERATORS;
    TagParts(child);
    TagParts(root);
    if n.numeric(child.value).Some? && n.numeric(root.value).None? && Word(root.value) {
      NumberUnderWord(child, root, n);
    }
    if n.numeric(child.value).None? && n.numeric(root.value).Some? && Word(child.value) {
      WordUnderNumber(child, root, n);
    }
  }

  lemma NumberUnderWord(child: Limit, root: Limit, n: Notation)
    requires Lawful(n) && Tag(child) && Tag(root)
    requires n.numeric(child.value).Some? && n.numeric(root.value).None? && Word(root.value)
    ensures NumbersUnder(child, root, n) <==> root.op in {"<", "<=", "!="}
  {
    hide Lawful, NumberMatches, Word, TextBefore;
    TagParts(child);
    TagParts(root);
    var r, t, _, _ := SomeNumber(n, child.op, child.value);
    PrintsComeFirst(n, r, t, root.value);
    TextOrder(t, root.value);
    assert AdmitsNumber(child, r, t, n);
    if root.op in {"<", "<=", "!="} {
      forall r, t | n.prints(r, t) && AdmitsNumber(child, r, t, n) ensures AdmitsNumber(root, r, t, n) {
        PrintsComeFirst(n, r, t, root.value);
      }
    }
  }

  lemma WordUnderNumber(child: Limit, root: Limit, n: Notation)
    requires Lawful(n) && Tag(child) && Tag(root)
    requires n.numeric(child.value).None? && n.numeric(root.value).Some? && Word(child.value)
    ensures NumbersUnder(child, root, n) <==> child.op in {"==", ">", ">="}
  {
    hide Lawful, NumberMatches, Word, TextBefore;
    TagParts(child);
    TagParts(root);
    var _, _, r, t := SomeNumber(n, root.op, root.value);
    PrintsComeFirst(n, r, t, child.value);
    TextOrder(t, child.value);
    assert !AdmitsNumber(root, r, t, n);
    if child.op in {"==", ">", ">="} {
      forall r, t | n.prints(r, t) ensures !AdmitsNumber(child, r, t, n) {
        PrintsComeFirst(n, r, t, child.value);
        TextOrder(t, child.value);
      }
    }
  }

  // --- contexts and reports ------------------------------------------------------------------------

  predicate Admits(l: Limit, c: Context, n: Notation)
    requires l.Tagged?
  {
    ContextMatches(c, l.field, l.op, l.value, n.numeric)
  }

  /** Some text has the tag, so a context with nothing but that field does. */
  lemma SomethingIsAdmitted(l: Limit, n: Notation) returns (c: Context)
    requires Tag(l)
    ensures Admits(l, c, n) && c.Keys == {l.field} && Genuine(c, n)
  {
    TagParts(l);
    var after := l.value + ['\0'];
    TextSuccessor(l.value, l.value);
    TextOrder(l.value, after);
    TextOrder(l.value, l.value);
    var s := if l.op in {"==", "<=", ">="} then l.value else if l.op == "<" then "" else after;
    assert TextMatches(s, l.op, l.value);
    c := map[l.field := Text(s)];
  }

  ghost predicate ContextsKept(child: Limit, root: Limit, n: Notation)
    requires child.Tagged? && root.Tagged?
  {
    forall c :: Genuine(c, n) && Admits(child, c, n) ==> Admits(root, c, n)
  }

  lemma CoveredIsAdmitted(child: Limit, root: Limit, n: Notation, c: Context)
    requires Lawful(n) && Tag(child) && Tag(root) && TagCovers(child, root, n) && Genuine(c, n) && Admits(child, c, n)
    ensures Admits(root, c, n)
  {
    hide OpCovers, NumberMatches, TextMatches, FlagMatches, TextBefore, Lawful, ValidLimit, OPERATORS;
    TagParts(child);
    TagParts(root);
    TextsCovered(child.op, child.value, root.op, root.value);
    match c[child.field]
    case Flag(b) =>
    case Text(s) =>
    case Number(r, t) =>
      if n.numeric(child.value).Some? && n.numeric(root.value).Some? {
        NumbersCovered(n, child.op, child.value, root.op, root.value);
      }
  }

  lemma KeptIsCovered(child: Limit, root: Limit, n: Notation)
    requires Lawful(n) && Tag(child) && Tag(root) && ContextsKept(child, root, n)
    ensures TagCovers(child, root, n)
  {
    hide OpCovers, NumberMatches, TextMatches, FlagMatches, TextBefore, Lawful, ValidLimit, OPERATORS;
    var f := child.field;
    var c := SomethingIsAdmitted(child, n);
    assert Admits(root, c, n) && root.field in c;
    TagParts(child);
    TagParts(root);
    forall s ensures TextMatches(s, child.op, child.value) ==> TextMatches(s, root.op, root.value) {
      var t: Context := map[f := Text(s)];
      assert Genuine(t, n) && (Admits(child, t, n) ==> Admits(root, t, n));
    }
    TextsCovered(child.op, child.value, root.op, root.value);
    forall v ensures FlagMatches(v, child.op, Truthy(child.value)) ==> FlagMatches(v, root.op, Truthy(root.value)) {
      var t: Context := map[f := Flag(v)];
      assert Genuine(t, n) && (Admits(child, t, n) ==> Admits(root, t, n));
    }
    forall r, t | n.prints(r, t) ensures AdmitsNumber(child, r, t, n) ==> AdmitsNumber(root, r, t, n) {
      var m: Context := map[f := Number(r, t)];
      assert Genuine(m, n) && (Admits(child, m, n) ==> Admits(root, m, n));
    }
    KeptNumbers(child, root, n);
  }

  lemma KeptNumbers(child: Limit, root: Limit, n: Notation)
    requires Lawful(n) && Tag(child) && Tag(root)
    requires forall r, t :: n.prints(r, t) && AdmitsNumber(child, r, t, n) ==> AdmitsNumber(root, r, t, n)
    ensures NumbersUnder(child, root, n)
  {
    hide OpCovers, NumberMatches, TextMatches, Lawful, ValidLimit, OPERATORS;
    TagParts(child);
    TagParts(root);
    if n.numeric(child.value).Some? && n.numeric(root.value).Some? {
      NumbersCovered(n, child.op, child.value, root.op, root.value);
    }
  }

  lemma ContextsCovered(child: Limit, root: Limit, n: Notation)
    requires Lawful(n) && Tag(child) && Tag(root)
    ensures ContextsKept(child, root, n) <==> TagCovers(child, root, n)
  {
    hide TagCovers, Lawful, Admits, ValidLimit;
    if ContextsKept(child, root, n) { KeptIsCovered(child, root, n); }
    if TagCovers(child, root, n) {
      forall c | Genuine(c, n) && Admits(child, c, n)
        ensures Admits(root, c, n)
      {
        CoveredIsAdmitted(child, root, n, c);
      }
    }
  }

  lemma {:induction false} WithinTag(rows: seq<Context>, l: Limit, n: Notation)
    requires l.Tagged?
    ensures Within(rows, l, n.numeric) <==> forall c :: c in rows ==> Admits(l, c, n)
  {
    if rows != [] {
      WithinTag(DropLast(rows), l, n);
      assert rows == DropLast(rows) + [Last(rows)];
      assert Outside(rows, l, n.numeric) ==
        Outside(DropLast(rows), l, n.numeric) + if Admits(l, Last(rows), n) then 0 else 1;
    }
  }

  /** Every report within the one rule is within the other. */
  ghost predicate Included(child: Limit, root: Limit, n: Notation) {
    forall rows :: GenuineRows(rows, n) && Within(rows, child, n.numeric) ==> Within(rows, root, n.numeric)
  }

  /** A tagged rule stays within another over all reports if and only if the one tag covers the other. */
  lemma TagsAreInclusion(child: Limit, root: Limit, n: Notation)
    requires Lawful(n) && Tag(child) && Tag(root)
    ensures Included(child, root, n) <==> TagCovers(child, root, n)
  {
    hide TagCovers, ContextMatches, Outside, Within, Lawful, ValidLimit;
    ContextsCovered(child, root, n);
    forall rows ensures Within(rows, child, n.numeric) <==> forall c :: c in rows ==> Admits(child, c, n)
                ensures Within(rows, root, n.numeric) <==> forall c :: c in rows ==> Admits(root, c, n) {
      WithinTag(rows, child, n);
      WithinTag(rows, root, n);
    }
    if Included(child, root, n) {
      forall c | Genuine(c, n) && Admits(child, c, n) ensures Admits(root, c, n) {
        assert GenuineRows([c], n) && Within([c], child, n.numeric);
        assert c in [c];
      }
    }
  }

  /** Contexts in which a field is a number. */
  ghost predicate NumberRows(rows: seq<Context>, field: string) {
    forall c: Context :: c in rows ==> field in c && c[field].Number?
  }

  /** Over reports in which the child's field is a number, numeric constants alone decide: `bedrooms>=10` stays within
      `bedrooms>=5`. */
  lemma NumericTagsOverNumbers(child: Limit, root: Limit, n: Notation)
    requires Lawful(n) && Tag(child) && Tag(root) && n.numeric(child.value).Some? && n.numeric(root.value).Some?
    ensures var a, b := n.numeric(child.value).value, n.numeric(root.value).value;
            (forall rows :: GenuineRows(rows, n) && NumberRows(rows, child.field) && Within(rows, child, n.numeric) ==>
               Within(rows, root, n.numeric))
            <==> child.field == root.field && OpCovers(child.op, root.op, a < b, a == b)
  {
    hide Outside, Within, Lawful, ValidLimit, OpCovers, NumberMatches;
    var f, a, b := child.field, n.numeric(child.value).value, n.numeric(root.value).value;
    TagParts(child);
    TagParts(root);
    NumbersCovered(n, child.op, child.value, root.op, root.value);
    forall rows ensures Within(rows, child, n.numeric) <==> forall c :: c in rows ==> Admits(child, c, n)
                ensures Within(rows, root, n.numeric) <==> forall c :: c in rows ==> Admits(root, c, n) {
      WithinTag(rows, child, n);
      WithinTag(rows, root, n);
    }
    if forall rows ::
        GenuineRows(rows, n) && NumberRows(rows, f) && Within(rows, child, n.numeric) ==> Within(rows, root, n.numeric)
    {
      forall r, t | n.prints(r, t) && NumberMatches(r, child.op, a)
        ensures NumberMatches(r, root.op, b) && root.field == f
      {
        var c: Context := map[f := Number(r, t)];
        assert GenuineRows([c], n) && NumberRows([c], f) && Within([c], child, n.numeric);
        assert c in [c] && Admits(root, c, n);
      }
      var r, t, _, _ := SomeNumber(n, child.op, child.value);
    }
  }

  // --- the comparison as a whole -------------------------------------------------------------------

  function Copies(c: Context, k: nat): (rows: seq<Context>)
    ensures |rows| == k && forall x :: x in rows ==> x == c
  {
    seq(k, _ => c)
  }

  lemma PlainUnderPlain(child: Limit, root: Limit, n: Notation)
    requires !child.Tagged? && !root.Tagged?
    ensures Included(child, root, n) <==> !Wider(child, root) || child == AtMost(0)
  {
    NotWiderIsInclusion(child, root, n.numeric);
    if Included(child, root, n) {
      forall rows | Within(rows, child, n.numeric) ensures Within(rows, root, n.numeric) {
        var same := Copies(map[], |rows|);
        assert GenuineRows(same, n) && Within(same, child, n.numeric);
      }
    }
  }

  lemma PlainUnderTag(child: Limit, root: Limit, n: Notation)
    requires !child.Tagged? && root.Tagged?
    ensures Included(child, root, n) <==> !Wider(child, root) || child == AtMost(0)
  {
    NotWiderUnderTagged(child, root, n.numeric);
    if Included(child, root, n) {
      var one: seq<Context> := [map[]];
      assert GenuineRows(one, n);
      NothingIsTagged(one, root, n.numeric);
    }
  }

  lemma TagUnderPlain(child: Limit, root: Limit, n: Notation)
    requires Tag(child) && !root.Tagged?
    ensures Included(child, root, n) <==> !Wider(child, root)
  {
    hide ContextMatches;
    if Wider(child, root) {
      var c := SomethingIsAdmitted(child, n);
      var rows := Copies(c, if root.AtMost? then root.n + 1 else 1);
      WithinTag(rows, child, n);
      assert GenuineRows(rows, n) && Within(rows, child, n.numeric) && !Within(rows, root, n.numeric);
    }
  }

  /** What the scope check's comparison is worth, for any two rules a contract can state. Unless both are tagged it
      refuses exactly the pairs with a report within the child's rule and not within the ROOT's, and besides them a
      child's `0`, which any rule covers. Two tags it never refuses; there the tags decide. */
  lemma ComparisonExactly(child: Limit, root: Limit, n: Notation)
    requires Lawful(n) && ValidLimit(child) && ValidLimit(root)
    ensures Included(child, root, n) <==>
            if child.Tagged? && root.Tagged? then TagCovers(child, root, n)
            else !Wider(child, root) || child == AtMost(0)
  {
    hide Included, TagCovers, Lawful, ValidLimit;
    if child.Tagged? && root.Tagged? {
      TagsAreInclusion(child, root, n);
    } else if child.Tagged? {
      TagUnderPlain(child, root, n);
    } else if root.Tagged? {
      PlainUnderTag(child, root, n);
    } else {
      PlainUnderPlain(child, root, n);
    }
  }

  // --- the laws hold together ----------------------------------------------------------------------

  function Ones(k: nat): (s: string)
    ensures |s| == k && forall i :: 0 <= i < k ==> s[i] == '1'
  {
    seq(k, _ => '1')
  }

  function LeadOnes(s: string): (k: nat)
    ensures k <= |s|
  {
    if s != [] && s[0] == '1' then 1 + LeadOnes(s[1..]) else 0
  }

  lemma {:induction false} LeadOnesOf(k: nat, rest: string)
    requires rest == [] || rest[0] != '1'
    ensures LeadOnes(Ones(k) + rest) == k
  {
    if k == 0 {
      assert Ones(0) + rest == rest;
    } else {
      assert (Ones(k) + rest)[1..] == Ones(k - 1) + rest;
      LeadOnesOf(k - 1, rest);
    }
  }

  function Fraction(above: int, below: nat): real
    requires below > 0
  {
    above as real / below as real
  }

  /** Fractions, as a sign, ones, a stroke and ones. */
  function ReadFraction(t: string): Option<real> {
    if t == [] || t[0] !in {'-', '0'} then None
    else
      var k := LeadOnes(t[1..]);
      var rest := t[1 + k..];
      if |rest| < 2 || rest[0] != '2' || LeadOnes(rest[1..]) != |rest| - 1 then None
      else Some(Fraction((if t[0] == '-' then -1 else 1) * k, |rest| - 1))
  }

  function WriteFraction(above: int, below: nat): string {
    [if above < 0 then '-' else '0'] + (Ones(if above < 0 then -above else above) + (['2'] + Ones(below)))
  }

  lemma FractionReadsBack(above: int, below: nat)
    requires below > 0
    ensures ReadFraction(WriteFraction(above, below)) == Some(Fraction(above, below))
  {
    hide Fraction;
    var k := if above < 0 then -above else above;
    var rest := ['2'] + Ones(below);
    var t := WriteFraction(above, below);
    assert t[1..] == Ones(k) + rest;
    LeadOnesOf(k, rest);
    assert t[1 + k..] == rest;
    LeadOnesOf(below, []);
    assert rest[1..] == Ones(below) + [];
  }

  lemma Inverse(x: real) returns (y: real)
    requires x > 0.0
    ensures y > 0.0 && y * x == 1.0
  {
    y := 1.0 / x;
  }

  lemma Grows(x: real, y: real, z: real)
    requires x < y && z > 0.0
    ensures x * z < y * z
  {
  }

  /** With enough parts of a unit, some number of them lies between any two numbers. */
  lemma EnoughParts(p: real, q: real) returns (below: nat, low: real, high: real)
    requires p < q
    ensures below > 0 && low == p * below as real && high == q * below as real && high > low + 1.0
  {
    var gap := q - p;
    var steps := Inverse(gap);
    below := steps.Floor + 1;
    var d := below as real;
    Grows(steps, d, gap);
    low, high := p * d, q * d;
    Spread(p, gap, d);
    assert p + gap == q;
  }

  /** Between any two numbers lies a fraction. */
  lemma FractionBetween(p: real, q: real) returns (above: int, below: nat)
    requires p < q
    ensures below > 0 && p < Fraction(above, below) < q
  {
    var low, high;
    below, low, high := EnoughParts(p, q);
    above := low.Floor + 1;
    var d := below as real;
    Divided(p, above as real, d);
    Divided(above as real, q, d);
  }

  lemma Spread(x: real, y: real, z: real)
    ensures (x + y) * z == x * z + y * z
  {
  }

  lemma Divided(x: real, y: real, d: real)
    requires d > 0.0
    ensures x * d < y ==> x < y / d
    ensures x < y * d ==> x / d < y
  {
    assert y / d * d == y && x / d * d == x;
  }

  const FRACTIONS := Notation(t => ReadFraction(t), (r, t) => ReadFraction(t) == Some(r))

  /** Some notation obeys all three laws. */
  lemma FractionsAreLawful()
    ensures Lawful(FRACTIONS)
  {
    hide Fraction;
    forall t | FRACTIONS.numeric(t).Some? ensures exists u :: FRACTIONS.prints(FRACTIONS.numeric(t).value, u) {
      assert FRACTIONS.prints(FRACTIONS.numeric(t).value, t);
    }
    forall p: real, q: real | p < q ensures Between(FRACTIONS, p, q) {
      var above, below := FractionBetween(p, q);
      FractionReadsBack(above, below);
      assert FRACTIONS.prints(Fraction(above, below), WriteFraction(above, below));
    }
  }
}
