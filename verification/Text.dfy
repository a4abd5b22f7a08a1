/** The text operations the contract language is written in: trimming, splitting, joining and reading numbers. */
module Text {
  import opened Prelude

  // --- white space -------------------------------------------------------------------------------

  /** Characters that end a line. */
  predicate Break(c: char) {
    '\n' <= c <= '\r' || '\U{001C}' <= c <= '\U{001E}' || c == '\U{0085}' || '\U{2028}' <= c <= '\U{2029}'
  }

  /** Characters that trimming removes. */
  predicate Space(c: char) {
    || '\t' <= c <= '\r' || '\U{001C}' <= c <= ' ' || c == '\U{0085}' || c == '\U{00A0}' || c == '\U{1680}'
    || '\U{2000}' <= c <= '\U{200A}' || '\U{2028}' <= c <= '\U{2029}' || c == '\U{202F}' || c == '\U{205F}'
    || c == '\U{3000}'
  }

  predicate Blank(s: string) {
    forall i :: 0 <= i < |s| ==> Space(s[i])
  }

  predicate Trimmed(s: string) {
    s != [] ==> !Space(s[0]) && !Space(Last(s))
  }

  function DropSpace(s: string): (r: string)
    ensures r == [] || !Space(r[0])
    ensures |r| <= |s|
  {
    if s != [] && Space(s[0]) then DropSpace(s[1..]) else s
  }

  lemma {:induction false} DropSpaceParts(s: string)
    ensures var r := DropSpace(s); r == s[|s| - |r|..] && Blank(s[..|s| - |r|])
  {
    if s != [] && Space(s[0]) {
      DropSpaceParts(s[1..]);
      var r := DropSpace(s);
      assert s[..|s| - |r|] == [s[0]] + s[1..][..|s| - 1 - |r|];
    }
  }

  function TrimEnd(s: string): (r: string)
    ensures r == [] || !Space(Last(r))
    ensures |r| <= |s|
  {
    if s != [] && Space(Last(s)) then TrimEnd(DropLast(s)) else s
  }

  lemma {:induction false} TrimEndParts(s: string)
    ensures var r := TrimEnd(s); r == s[..|r|] && Blank(s[|r|..])
  {
    if s != [] && Space(Last(s)) {
      TrimEndParts(DropLast(s));
      var r := TrimEnd(s);
      assert s[|r|..] == DropLast(s)[|r|..] + [Last(s)];
    }
  }

  function Strip(s: string): (r: string)
    ensures Trimmed(r) && |r| <= |s|
  {
    var a := DropSpace(s);
    assert TrimEnd(a) != [] ==> TrimEnd(a)[0] == a[0] by { TrimEndParts(a); }
    TrimEnd(a)
  }

  lemma StripLetters(s: string)
    ensures forall c :: c in Strip(s) ==> c in s
  {
    hide Space;
    var a := DropSpace(s);
    DropSpaceParts(s);
    TrimEndParts(a);
    assert forall c :: c in a ==> c in s;
  }

  lemma BlankConcat(a: string, b: string)
    ensures Blank(a + b) <==> Blank(a) && Blank(b)
  {
    hide Space;
    if Blank(a + b) {
      forall i | 0 <= i < |a| ensures Space(a[i]) { assert (a + b)[i] == a[i]; }
      forall i | 0 <= i < |b| ensures Space(b[i]) { assert (a + b)[|a| + i] == b[i]; }
    }
  }

  lemma StripBlank(s: string)
    ensures Strip(s) == [] <==> Blank(s)
  {
    hide Space;
    var a := DropSpace(s);
    var r := TrimEnd(a);
    DropSpaceParts(s);
    TrimEndParts(a);
    assert s == s[..|s| - |a|] + a && a == r + a[|r|..];
    BlankConcat(s[..|s| - |a|], a);
    BlankConcat(r, a[|r|..]);
  }

  /** Trimming takes exactly the blanks around a trimmed text. */
  lemma StripPadded(before: string, s: string, after: string)
    requires Blank(before) && Trimmed(s) && Blank(after)
    ensures Strip(before + s + after) == s
  {
    hide Space;
    var whole := before + s + after;
    if s == [] {
      BlankConcat(before, s);
      BlankConcat(before + s, after);
      StripBlank(whole);
    } else {
      var a := DropSpace(whole);
      DropSpaceParts(whole);
      TrimEndParts(a);
      var k := |whole| - |a|;
      FirstInk(whole, |before|, k);
      assert a == s + after;
      var r := TrimEnd(a);
      LastInk(a, |s|, |r|);
    }
  }

  lemma FirstInk(s: string, n: nat, k: nat)
    requires n < |s| && Blank(s[..n]) && !Space(s[n])
    requires k <= |s| && Blank(s[..k]) && (k < |s| ==> !Space(s[k]))
    ensures k == n
  {
    hide Space, Blank;
    if k < n { BlankAt(s[..n], k); }
    if n < k { BlankAt(s[..k], n); }
  }

  lemma LastInk(s: string, n: nat, k: nat)
    requires 0 < n <= |s| && Blank(s[n..]) && !Space(s[n - 1])
    requires k <= |s| && Blank(s[k..]) && (k > 0 ==> !Space(s[k - 1]))
    ensures k == n
  {
    hide Space, Blank;
    if n < k { BlankAt(s[n..], k - 1 - n); }
    if k < n { BlankAt(s[k..], n - 1 - k); }
  }

  lemma BlankAt(s: string, i: nat)
    requires Blank(s) && i < |s|
    ensures Space(s[i])
  {
  }

  lemma StripTrimmed(s: string)
    requires Trimmed(s)
    ensures Strip(s) == s
  {
    StripPadded("", s, "");
    assert "" + s + "" == s;
  }

  // --- splitting and joining ---------------------------------------------------------------------

  datatype Cut = AtNewlines | AtBreaks | AtCommas | AtTokens | AtSpecs

  predicate Cuts(cut: Cut, c: char) {
    match cut
    case AtNewlines => c == '\n'
    case AtBreaks => Break(c)
    case AtCommas => c == ',' || c == '\n'
    case AtTokens => c == ',' || Space(c)
    case AtSpecs => c == ';' || c == '|'
  }

  predicate Uncut(s: string, cut: Cut) {
    forall i :: 0 <= i < |s| ==> !Cuts(cut, s[i])
  }

  function SplitAt(s: string, cut: Cut): (r: seq<string>)
    ensures |r| >= 1
  {
    if s == [] then [[]]
    else
      var r := SplitAt(s[1..], cut);
      if Cuts(cut, s[0]) then [[]] + r else [[s[0]] + r[0]] + r[1..]
  }

  lemma {:induction false} SplitUncut(s: string, cut: Cut)
    requires Uncut(s, cut)
    ensures SplitAt(s, cut) == [s]
  {
    hide Space, Break, Cuts;
    if s != [] {
      SplitUncut(s[1..], cut);
      assert [s[0]] + s[1..] == s;
    }
  }

  lemma {:induction false} PiecesUncut(s: string, cut: Cut)
    ensures forall p :: p in SplitAt(s, cut) ==> Uncut(p, cut)
  {
    hide Space, Break, Cuts;
    if s != [] {
      PiecesUncut(s[1..], cut);
      var r := SplitAt(s[1..], cut);
      assert r[0] in r;
      assert !Cuts(cut, s[0]) ==> Uncut([s[0]] + r[0], cut);
      assert Uncut([], cut);
      forall p | p in SplitAt(s, cut) ensures Uncut(p, cut) {
        if p !in r { assert p == if Cuts(cut, s[0]) then [] else [s[0]] + r[0]; }
      }
    }
  }

  lemma {:induction false} PiecesPart(s: string, cut: Cut, p: string)
    requires p in SplitAt(s, cut)
    ensures forall c :: c in p ==> c in s
  {
    hide Space, Break, Cuts;
    if s != [] {
      var r := SplitAt(s[1..], cut);
      if p in r {
        PiecesPart(s[1..], cut, p);
      } else if !Cuts(cut, s[0]) {
        assert r[0] in r && p == [s[0]] + r[0];
        PiecesPart(s[1..], cut, r[0]);
      }
    }
  }

  lemma {:induction false} SplitConcat(a: string, c: char, b: string, cut: Cut)
    requires Cuts(cut, c)
    ensures SplitAt(a + [c] + b, cut) == SplitAt(a, cut) + SplitAt(b, cut)
  {
    hide Space, Break, Cuts, Uncut;
    if a == [] {
      assert a + [c] + b == [c] + b && ([c] + b)[1..] == b;
    } else {
      assert (a + [c] + b)[1..] == a[1..] + [c] + b;
      SplitConcat(a[1..], c, b, cut);
      Graft(a[0], SplitAt(a[1..], cut), SplitAt(b, cut));
    }
  }

  /** Prepending a character, or a cut, to the first of two lists of pieces. */
  lemma Graft(c: char, p: seq<string>, q: seq<string>)
    requires p != []
    ensures [[c] + (p + q)[0]] + (p + q)[1..] == [[c] + p[0]] + p[1..] + q
    ensures [[]] + (p + q) == [[]] + p + q
  {
  }

  function Join(parts: seq<string>, glue: string): string {
    if parts == [] then ""
    else if |parts| == 1 then parts[0]
    else Join(DropLast(parts), glue) + glue + Last(parts)
  }

  /** Lines survive being joined and split again. */
  lemma {:induction false} SplitJoined(lines: seq<string>, cut: Cut)
    requires lines != [] && Cuts(cut, '\n') && forall i :: 0 <= i < |lines| ==> Uncut(lines[i], cut)
    ensures SplitAt(Join(lines, "\n"), cut) == lines
  {
    hide Space, Break, Cuts, Uncut, SplitAt;
    SplitUncut(Last(lines), cut);
    if |lines| > 1 {
      SplitJoined(DropLast(lines), cut);
      SplitConcat(Join(DropLast(lines), "\n"), '\n', Last(lines), cut);
      assert lines == DropLast(lines) + [Last(lines)];
    }
  }

  /** A joined text starts as its first part and ends as its last. */
  lemma {:induction false} JoinEnds(parts: seq<string>, glue: string)
    requires parts != [] && forall i :: 0 <= i < |parts| ==> parts[i] != []
    ensures var s := Join(parts, glue); s != [] && s[0] == parts[0][0] && Last(s) == Last(Last(parts))
  {
    if |parts| > 1 { JoinEnds(DropLast(parts), glue); }
  }

  lemma {:induction false} SplitGlued(parts: seq<string>, cut: Cut)
    requires |parts| > 1 && Cuts(cut, ',') && Uncut(" " + Last(parts), cut)
    ensures SplitAt(Join(parts, ", "), cut) == SplitAt(Join(DropLast(parts), ", "), cut) + [" " + Last(parts)]
  {
    hide Space, Break, Cuts, Uncut, SplitAt;
    SplitUncut(" " + Last(parts), cut);
    SplitConcat(Join(DropLast(parts), ", "), ',', " " + Last(parts), cut);
    assert Join(DropLast(parts), ", ") + [','] + (" " + Last(parts)) == Join(parts, ", ");
  }

  // --- numbers -----------------------------------------------------------------------------------

  predicate Digit(c: char) {
    '0' <= c <= '9'
  }

  function LeadDigits(s: string): (r: string)
    ensures r <= s && forall i :: 0 <= i < |r| ==> Digit(r[i])
    ensures |r| < |s| ==> !Digit(s[|r|])
  {
    if s != [] && Digit(s[0]) then [s[0]] + LeadDigits(s[1..]) else []
  }

  predicate AllDigits(s: string) {
    s != [] && forall i :: 0 <= i < |s| ==> Digit(s[i])
  }

  function Value(s: string): nat
    requires forall i :: 0 <= i < |s| ==> Digit(s[i])
  {
    if s == [] then 0 else (assert Digit(Last(s)); Value(DropLast(s)) * 10 + (Last(s) - '0') as nat)
  }

  function Decimal(n: nat): (s: string)
    ensures AllDigits(s)
  {
    if n < 10 then [(n as char) + '0'] else Decimal(n / 10) + [((n % 10) as char) + '0']
  }

  lemma {:induction false} ValueOfDecimal(n: nat)
    ensures Value(Decimal(n)) == n
  {
    if n >= 10 {
      ValueOfDecimal(n / 10);
      assert DropLast(Decimal(n)) == Decimal(n / 10);
    }
  }

  lemma {:induction false} LeadDigitsOf(digits: string, rest: string)
    requires (forall i :: 0 <= i < |digits| ==> Digit(digits[i])) && (rest != [] ==> !Digit(rest[0]))
    ensures LeadDigits(digits + rest) == digits
  {
    if digits == [] {
      assert digits + rest == rest;
    } else {
      assert (digits + rest)[1..] == digits[1..] + rest;
      LeadDigitsOf(digits[1..], rest);
    }
  }

  lemma {:induction false} LowerAt(s: string, i: nat)
    requires i < |s|
    ensures Lower(s)[i] == LowerChar(s[i])
  {
    if i > 0 { LowerAt(s[1..], i - 1); }
  }

  /** Lower-casing leaves a text without capitals alone. */
  lemma LowerPlain(s: string)
    requires forall i :: 0 <= i < |s| ==> !('A' <= s[i] <= 'Z')
    ensures Lower(s) == s
  {
    forall i | 0 <= i < |s| ensures Lower(s)[i] == s[i] { LowerAt(s, i); }
  }
}
