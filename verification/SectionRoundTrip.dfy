/** When do the sections of an Issue body survive being printed and read back? */
module SectionRoundTrip {
  import opened Prelude
  import opened Text
  import opened IssueSections

  // --- pages: what printing puts on paper --------------------------------------------------------

  predicate Titled(key: string) {
    key != "" && Trimmed(key) && '\n' !in key
  }

  /** Sections as they stand on paper: every label and every text present and trimmed. */
  predicate Page(p: seq<Section>) {
    p != [] && forall i :: 0 <= i < |p| ==> Titled(p[i].key) && Trimmed(p[i].value) && p[i].value != ""
  }

  function PageRows(p: seq<Section>): seq<string> {
    if p == [] then [] else ["### " + p[0].key] + TextRows(p[0].value) + PageRows(p[1..])
  }

  function TextRows(value: string): seq<string> {
    [""] + Rows(value) + [""]
  }

  function Sheet(s: Section): string {
    "### " + s.key + "\n\n" + s.value + "\n"
  }

  function PageText(p: seq<Section>): string {
    if p == [] then "" else if |p| == 1 then Sheet(p[0]) else Sheet(p[0]) + "\n" + PageText(p[1..])
  }

  lemma RowsOfSheet(s: Section)
    requires '\n' !in s.key
    ensures Rows(Sheet(s)) == ["### " + s.key] + TextRows(s.value)
  {
    hide Space, Break, SplitAt;
    var title := "### " + s.key;
    SplitUncut(title, AtNewlines);
    SplitUncut("", AtNewlines);
    SplitConcat(s.value, '\n', "", AtNewlines);
    assert s.value + ['\n'] + "" == s.value + "\n";
    SplitConcat("", '\n', s.value + "\n", AtNewlines);
    assert "" + ['\n'] + (s.value + "\n") == "\n" + s.value + "\n";
    SplitConcat(title, '\n', "\n" + s.value + "\n", AtNewlines);
    assert title + ['\n'] + ("\n" + s.value + "\n") == Sheet(s);
    assert [title] + ([""] + (Rows(s.value) + [""])) == [title] + TextRows(s.value);
  }

  lemma {:induction false} RowsOfPage(p: seq<Section>)
    requires p != [] && forall i :: 0 <= i < |p| ==> '\n' !in p[i].key
    ensures Rows(PageText(p)) == PageRows(p)
  {
    hide Space, Break, SplitAt, TextRows, Sheet;
    RowsOfSheet(p[0]);
    if |p| > 1 {
      RowsOfPage(p[1..]);
      SplitConcat(Sheet(p[0]), '\n', PageText(p[1..]), AtNewlines);
    } else {
      assert PageRows(p[1..]) == [];
    }
  }

  // --- a text that does not speak up -------------------------------------------------------------

  /** No row of the text would be read as the start of a heading. */
  predicate Calm(value: string) {
    forall i :: 0 <= i < |Rows(value)| ==> !Opens(Rows(value)[i])
  }

  /** At the end of the body a last row of just `###` is harmless too. */
  predicate CalmAtEnd(value: string) {
    var rows := Rows(value);
    (forall i :: 0 <= i < |rows| - 1 ==> !Opens(rows[i])) && (Opens(Last(rows)) ==> Last(rows) == "###")
  }

  predicate Quiet(p: seq<Section>, i: nat)
    requires i < |p|
  {
    if i == |p| - 1 then CalmAtEnd(p[i].value) else Calm(p[i].value)
  }

  lemma WholeText(value: string)
    requires Trimmed(value)
    ensures Strip(Unlines(TextRows(value))) == value
  {
    hide Space, Break, SplitAt, Strip, Trimmed;
    UnlinesFramed(Rows(value));
    UnlinesRows(value);
    LineEndIsBlank();
    StripPadded("\n", value, "\n");
  }

  lemma LineEndIsBlank()
    ensures Blank("\n")
  {
  }

  lemma LabelRow(key: string)
    requires Titled(key)
    ensures var row := "### " + key;
        Opens(row) && !Blank(row[3..]) && Strip(row[3..]) == key && !Blank(row) && Strip(row) == row
  {
    hide Strip, TrimEnd;
    var row := "### " + key;
    assert row[3..] == " " + key && (" " + key)[1] == key[0];
    StripPadded(" ", key, "");
    assert " " + key + "" == " " + key;
    assert row[0] == '#' && Last(row) == Last(key);
    StripTrimmed(row);
  }

  lemma PageHeads(p: seq<Section>)
    requires Page(p)
    ensures PageRows(p) != [] && Heading(PageRows(p)) == Some(Head(p[0].key, 1))
    ensures PageRows(p)[1..] == TextRows(p[0].value) + PageRows(p[1..])
    ensures PageRows(p)[0] == "### " + p[0].key && !Blank(PageRows(p)[0])
  {
    hide Space, SplitAt, Titled, Trimmed, Blank, Strip, Opens;
    LabelRow(p[0].key);
    assert PageRows(p) == ["### " + p[0].key] + (TextRows(p[0].value) + PageRows(p[1..]));
  }

  /** A row that opens is a heading, whatever text it stands in, unless it is a bare `###` that ends the body. */
  lemma OpenRowHeads(value: string, q: nat, after: seq<string>)
    requires Trimmed(value) && value != "" && q < |Rows(value)| && Opens(Rows(value)[q])
    requires after != [] ==> !Blank(after[0])
    requires after == [] && q == |Rows(value)| - 1 ==> Rows(value)[q] != "###"
    ensures Heading(Rows(value)[q..] + [""] + after).Some?
  {
    hide Space, SplitAt, Strip;
    var rows := Rows(value);
    var here := rows[q..] + [""] + after;
    LastRow(value);
    if Blank(rows[q][3..]) {
      if q < |rows| - 1 {
        assert here[1..][|rows| - 2 - q] == Last(rows);
        assert !Blank(Last(rows));
      } else {
        BareRow(rows[q]);
        assert here[1..][1] == after[0];
      }
    }
  }

  lemma BareRow(row: string)
    requires Opens(row) && Blank(row[3..]) && !Space(Last(row))
    ensures row == "###"
  {
    hide Space, Blank;
    if |row| > 3 { BlankAt(row[3..], |row| - 4); }
  }

  lemma NextIs(rows: seq<string>, n: nat)
    requires n <= |rows| && (forall j :: 0 <= j < n ==> Heading(rows[j..]).None?)
    requires (n < |rows| ==> Heading(rows[n..]).Some?)
    ensures ToNext(rows) == n
  {
    hide Heading, ToNext;
    var m := ToNext(rows);
    ToNextIsNext(rows);
  }

  /** The text of a section ends at the next printed heading exactly when the text is quiet. */
  lemma TextEnds(p: seq<Section>, i: nat)
    requires Page(p) && i < |p|
    ensures var rows := TextRows(p[i].value) + PageRows(p[i + 1..]);
            && ToNext(rows) <= |TextRows(p[i].value)|
            && (Quiet(p, i) <==> ToNext(rows) == |TextRows(p[i].value)|)
  {
    hide Space, SplitAt, Strip, Heading, Trimmed, ToNext;
    var value, after := p[i].value, PageRows(p[i + 1..]);
    var text := TextRows(value);
    var rows := text + after;
    ToNextIsNext(rows);
    if i < |p| - 1 { PageHeads(p[i + 1..]); }
    assert rows[|text|..] == after;
    if Quiet(p, i) {
      forall j | 0 <= j < |text| ensures Heading(rows[j..]).None? { QuietRow(p, i, j); }
      NextIs(rows, |text|);
    } else {
      var q :| 0 <= q < |Rows(value)| && Opens(Rows(value)[q])
          && (i == |p| - 1 && q == |Rows(value)| - 1 ==> Rows(value)[q] != "###");
      OpenRowHeads(value, q, after);
      assert rows[q + 1..] == Rows(value)[q..] + [""] + after;
    }
  }

  lemma QuietRow(p: seq<Section>, i: nat, j: nat)
    requires Page(p) && i < |p| && Quiet(p, i) && j < |TextRows(p[i].value)|
    ensures Heading((TextRows(p[i].value) + PageRows(p[i + 1..]))[j..]).None?
  {
    hide Space, SplitAt, Strip, Trimmed;
    var text, after := TextRows(p[i].value), PageRows(p[i + 1..]);
    var here := (text + after)[j..];
    assert here[0] == text[j];
    if 1 <= j <= |Rows(p[i].value)| && Opens(Rows(p[i].value)[j - 1]) {
      assert after == [] && here == ["###", ""];
      assert here[1..] == [""] && LeadBlanks([""]) == 1;
    }
  }

  /** A quiet page reads back as it is. */
  lemma {:induction false} ScanQuiet(p: seq<Section>)
    requires Page(p) && forall i :: 0 <= i < |p| ==> Quiet(p, i)
    ensures Scan(PageRows(p)) == p
  {
    hide Space, SplitAt, Strip, Heading, ToNext, TextRows, Trimmed, Calm, CalmAtEnd;
    PageHeads(p);
    TextEnds(p, 0);
    WholeText(p[0].value);
    var text, after := TextRows(p[0].value), PageRows(p[1..]);
    assert (text + after)[..|text|] == text && (text + after)[|text|..] == after;
    if |p| > 1 {
      forall i | 0 <= i < |p| - 1 ensures Quiet(p[1..], i) { assert Quiet(p, i + 1); }
      ScanQuiet(p[1..]);
    }
    assert p == [p[0]] + p[1..];
  }

  // --- where a text read back can come from ------------------------------------------------------

  /** What was read is the whole of a quiet text, under its own label or one a bare `###` before it has swallowed, or
      only a piece of a text that is not quiet. */
  ghost predicate From(p: seq<Section>, m: Section, i: nat)
    requires i < |p|
  {
    if Quiet(p, i) then m.value == p[i].value && (m.key == p[i].key || m.key == "### " + p[i].key)
    else |m.value| < |p[i].value|
  }

  /** What was read at `j` comes from the text `i`; a quiet last text can only be read last. */
  ghost predicate Source(p: seq<Section>, found: seq<Section>, j: nat, i: nat)
    requires j < |found|
  {
    i < |p| && From(p, found[j], i) && (i == |p| - 1 && Quiet(p, i) ==> j == |found| - 1)
  }

  ghost predicate Sourced(p: seq<Section>, found: seq<Section>, j: nat)
    requires j < |found|
  {
    exists i :: Source(p, found, j, i)
  }

  ghost predicate Traced(p: seq<Section>, found: seq<Section>) {
    forall j :: 0 <= j < |found| ==> Sourced(p, found, j)
  }

  lemma TracedNext(p: seq<Section>, m: Section, found: seq<Section>, i: nat)
    requires i < |p| && From(p, m, i) && (i == |p| - 1 && Quiet(p, i) ==> found == []) && Traced(p, found)
    ensures Traced(p, [m] + found)
  {
    hide From, Quiet;
    var all := [m] + found;
    forall j | 0 <= j < |all| ensures Sourced(p, all, j) {
      if j == 0 {
        assert Source(p, all, j, i);
      } else {
        assert Sourced(p, found, j - 1) && all[j] == found[j - 1];
        var k :| Source(p, found, j - 1, k);
        assert Source(p, all, j, k);
      }
    }
  }

  /** Rows that leave out a heading row of a text spell something shorter. */
  lemma PieceIsShorter(value: string, before: seq<string>, row: string, between: seq<string>, after: seq<string>,
      piece: seq<string>)
    requires Rows(value) == before + [row] + between + after && Opens(row)
    requires piece <= [""] + before || piece <= after + [""]
    ensures |Strip(Unlines(piece))| < |value|
  {
    hide Space, SplitAt, Strip, Rows;
    UnlinesRows(value);
    UnlinesWeighs(Rows(value));
    UnlinesWeighs(piece);
    WeightConcat(before + [row] + between, after);
    WeightConcat(before + [row], between);
    WeightConcat(before, [row]);
    assert [row][1..] == [];
    WeightConcat([""], before);
    WeightConcat(after, [""]);
    assert [""][1..] == [];
    if piece <= [""] + before {
      assert piece + ([""] + before)[|piece|..] == [""] + before;
      WeightConcat(piece, ([""] + before)[|piece|..]);
    } else {
      assert piece + (after + [""])[|piece|..] == after + [""];
      WeightConcat(piece, (after + [""])[|piece|..]);
    }
  }

  /** Where the heading of some rows takes its label from. */
  lemma HeadingTakes(rows: seq<string>)
    requires rows != [] && Heading(rows).Some?
    ensures var h := Heading(rows).value;
            && Opens(rows[0])
            && ((h.used == |rows| && h.key == "" && forall j :: 1 <= j < |rows| ==> Blank(rows[j]))
                || h.used == 1
                || (!Blank(rows[h.used - 1]) && h.key == Strip(rows[h.used - 1])
                    && forall j :: 1 <= j < h.used - 1 ==> Blank(rows[j])))
  {
    hide Space, Strip, Opens, Blank;
    var k := LeadBlanks(rows[1..]);
    forall j | 1 <= j < k + 1 ensures Blank(rows[j]) { assert rows[j] == rows[1..][j - 1]; }
    assert k + 1 < |rows| ==> rows[k + 1] == rows[1..][k];
  }

  /** Reading on from a printed heading. */
  lemma {:induction false} ScanPage(p: seq<Section>, i: nat)
    requires Page(p) && i <= |p|
    ensures Traced(p, Scan(PageRows(p[i..])))
    decreases |p| - i, 2, 0
  {
    hide Space, SplitAt, Strip, Heading, ToNext, TextRows, Trimmed, Quiet, From, Opens, Titled;
    if i < |p| {
      PageHeads(p[i..]);
      assert p[i..][1..] == p[i + 1..];
      ScanTextOf(p, i, p[i].key);
    }
  }

  /** Reading the text of a section, once its heading has been read. */
  lemma {:induction false} ScanTextOf(p: seq<Section>, i: nat, key: string)
    requires Page(p) && i < |p| && (key == p[i].key || key == "### " + p[i].key)
    ensures Traced(p, ScanText(key, TextRows(p[i].value) + PageRows(p[i + 1..])))
    decreases |p| - i, 1, 0
  {
    hide Space, SplitAt, Strip, Heading, Trimmed, Quiet, From, Opens, Titled, ToNext, Rows, Traced, TextRows, Unlines,
         ScanText;
    TextEnds(p, i);
    ScanPage(p, i + 1);
    if Quiet(p, i) {
      QuietText(p, i, key);
    } else {
      var n := ToNext(TextRows(p[i].value) + PageRows(p[i + 1..]));
      CutShort(p, i, n);
      ScanInside(p, i, n - 1);
      LoudText(p, i, key, n);
    }
  }

  lemma QuietText(p: seq<Section>, i: nat, key: string)
    requires Page(p) && i < |p| && Quiet(p, i) && (key == p[i].key || key == "### " + p[i].key)
    requires Traced(p, Scan(PageRows(p[i + 1..])))
    ensures Traced(p, ScanText(key, TextRows(p[i].value) + PageRows(p[i + 1..])))
  {
    hide Space, SplitAt, Strip, Heading, Trimmed, Quiet, From, Opens, Titled, ToNext, TextRows, Traced, Unlines;
    var text, after := TextRows(p[i].value), PageRows(p[i + 1..]);
    TextEnds(p, i);
    WholeText(p[i].value);
    assert (text + after)[..|text|] == text && (text + after)[|text|..] == after;
    var m := Section(key, p[i].value);
    WholeFrom(p, m, i);
    assert i == |p| - 1 ==> Scan(after) == [];
    TracedNext(p, m, Scan(after), i);
  }

  lemma LoudText(p: seq<Section>, i: nat, key: string, n: nat)
    requires Page(p) && i < |p| && !Quiet(p, i) && 1 <= n <= |Rows(p[i].value)|
    requires n == ToNext(TextRows(p[i].value) + PageRows(p[i + 1..]))
    requires |Strip(Unlines((TextRows(p[i].value) + PageRows(p[i + 1..]))[..n]))| < |p[i].value|
    requires Traced(p, Scan(Rows(p[i].value)[n - 1..] + [""] + PageRows(p[i + 1..])))
    ensures Traced(p, ScanText(key, TextRows(p[i].value) + PageRows(p[i + 1..])))
  {
    hide Space, SplitAt, Strip, Heading, Trimmed, Quiet, From, Opens, Titled, ToNext, Rows, Traced, Unlines, Scan,
         ScanText;
    var rows := TextRows(p[i].value) + PageRows(p[i + 1..]);
    assert rows[n..] == Rows(p[i].value)[n - 1..] + [""] + PageRows(p[i + 1..]);
    ScanPiece(p, Section(key, Strip(Unlines(rows[..n]))), key, rows, i);
  }

  lemma WholeFrom(p: seq<Section>, m: Section, i: nat)
    requires i < |p| && Quiet(p, i) && m.value == p[i].value && (m.key == p[i].key || m.key == "### " + p[i].key)
    ensures From(p, m, i)
  {
  }

  lemma PieceFrom(p: seq<Section>, m: Section, i: nat)
    requires i < |p| && !Quiet(p, i) && |m.value| < |p[i].value|
    ensures From(p, m, i)
  {
  }

  lemma CutShort(p: seq<Section>, i: nat, n: nat)
    requires Page(p) && i < |p| && n == ToNext(TextRows(p[i].value) + PageRows(p[i + 1..]))
    requires n < |TextRows(p[i].value)|
    ensures 1 <= n <= |Rows(p[i].value)|
    ensures |Strip(Unlines((TextRows(p[i].value) + PageRows(p[i + 1..]))[..n]))| < |p[i].value|
  {
    hide Space, SplitAt, Strip, Trimmed, Quiet, Titled, Rows;
    var vl := Rows(p[i].value);
    var rows := TextRows(p[i].value) + PageRows(p[i + 1..]);
    ToNextIsNext(rows);
    HeadingTakes(rows[n..]);
    assert rows[n] == rows[n..][0];
    assert 1 <= n <= |vl| && rows[n] == vl[n - 1];
    assert vl == vl[..n - 1] + [vl[n - 1]] + vl[n..];
    assert rows[..n] == [""] + vl[..n - 1];
    assert vl[n..] == [] + vl[n..];
    PieceIsShorter(p[i].value, vl[..n - 1], vl[n - 1], [], vl[n..], rows[..n]);
  }

  /** Reading on inside a text that is not quiet. */
  lemma {:induction false} ScanInside(p: seq<Section>, i: nat, q: nat)
    requires Page(p) && i < |p| && !Quiet(p, i) && q <= |Rows(p[i].value)|
    ensures Traced(p, Scan(Rows(p[i].value)[q..] + [""] + PageRows(p[i + 1..])))
    decreases |p| - i, 0, |Rows(p[i].value)| - q
  {
    hide Space, SplitAt, Strip, Heading, Trimmed, Quiet, From, Opens, Titled, ToNext, Rows, Traced, Unlines, ScanText;
    var vl, after := Rows(p[i].value), PageRows(p[i + 1..]);
    var rows := vl[q..] + [""] + after;
    match Heading(rows)
    case None =>
      assert rows[1..] == if q < |vl| then vl[q + 1..] + [""] + after else after;
      if q < |vl| { ScanInside(p, i, q + 1); } else { ScanPage(p, i + 1); }
    case Some(h) =>
      HeadingInside(p, i, q);
      if h.used <= |vl| - q {
        var text := vl[q + h.used..] + [""] + after;
        assert rows[h.used..] == text;
        var n := ToNext(text);
        PieceRead(p, i, q, h.used);
        assert text[n..] == if n <= |vl| - q - h.used then vl[q + h.used + n..] + [""] + after else after;
        if n <= |vl| - q - h.used { ScanInside(p, i, q + h.used + n); } else { ScanPage(p, i + 1); }
        ScanPiece(p, Section(h.key, Strip(Unlines(text[..n]))), h.key, text, i);
      } else if i + 1 < |p| {
        ScanTextOf(p, i + 1, h.key);
      } else {
        EndOfBody(p, i);
      }
  }

  /** A heading inside a text lies within it, or swallows the printed heading that follows, or ends the body. */
  lemma HeadingInside(p: seq<Section>, i: nat, q: nat)
    requires Page(p) && i < |p| && q <= |Rows(p[i].value)|
    requires Heading(Rows(p[i].value)[q..] + [""] + PageRows(p[i + 1..])).Some?
    ensures var rows := Rows(p[i].value)[q..] + [""] + PageRows(p[i + 1..]); var h := Heading(rows).value;
            && q < |Rows(p[i].value)| && Opens(Rows(p[i].value)[q])
            && (h.used > |Rows(p[i].value)| - q ==>
                  if i + 1 < |p|
                  then h.key == "### " + p[i + 1].key
                      && rows[h.used..] == TextRows(p[i + 1].value) + PageRows(p[i + 2..])
                  else h.key == "" && rows[h.used..] == [])
  {
    hide Space, SplitAt, Strip, Heading, Trimmed, Titled, Rows, Blank;
    var vl, after := Rows(p[i].value), PageRows(p[i + 1..]);
    var rows := vl[q..] + [""] + after;
    var h := Heading(rows).value;
    HeadingTakes(rows);
    EmptyIsBlank();
    assert rows[|vl| - q] == "";
    if h.used > |vl| - q && i + 1 < |p| {
      PageHeads(p[i + 1..]);
      LabelRow(p[i + 1].key);
      assert rows[|vl| - q + 1] == after[0];
      assert h.used == |vl| - q + 2;
      assert rows[h.used..] == after[1..];
      assert p[i + 1..][1..] == p[i + 2..];
    }
  }

  lemma EmptyIsBlank()
    ensures Blank("") && !Opens("")
  {
  }

  lemma PieceRead(p: seq<Section>, i: nat, q: nat, used: nat)
    requires Page(p) && i < |p| && q < |Rows(p[i].value)| && 1 <= used <= |Rows(p[i].value)| - q
    requires Opens(Rows(p[i].value)[q])
    ensures var text := Rows(p[i].value)[q + used..] + [""] + PageRows(p[i + 1..]); var n := ToNext(text);
            && n <= |Rows(p[i].value)| - q - used + 1
            && |Strip(Unlines(text[..n]))| < |p[i].value|
  {
    hide Space, SplitAt, Strip, Heading, Trimmed, Titled, Rows, Opens;
    var vl, after := Rows(p[i].value), PageRows(p[i + 1..]);
    var own := vl[q + used..] + [""];
    var text := own + after;
    var n := ToNext(text);
    ToNextIsNext(text);
    if i + 1 < |p| {
      PageHeads(p[i + 1..]);
      assert text[|own|..] == after;
    }
    assert n <= |own|;
    assert vl == vl[..q] + [vl[q]] + vl[q + 1..q + used] + vl[q + used..];
    assert text[..n] <= own;
    PieceIsShorter(p[i].value, vl[..q], vl[q], vl[q + 1..q + used], vl[q + used..], text[..n]);
  }

  lemma ScanPiece(p: seq<Section>, m: Section, key: string, text: seq<string>, i: nat)
    requires i < |p| && !Quiet(p, i) && m == Section(key, Strip(Unlines(text[..ToNext(text)])))
    requires |m.value| < |p[i].value|
    requires Traced(p, Scan(text[ToNext(text)..]))
    ensures Traced(p, ScanText(key, text))
  {
    hide Strip, Quiet, Traced, ToNext, Unlines;
    PieceFrom(p, m, i);
    TracedNext(p, m, Scan(text[ToNext(text)..]), i);
  }

  lemma EndOfBody(p: seq<Section>, i: nat)
    requires Page(p) && i < |p| && !Quiet(p, i)
    ensures Traced(p, ScanText("", []))
  {
    assert Strip("") == "";
    ScanPiece(p, Section("", ""), "", [], i);
  }

  // --- line ends ---------------------------------------------------------------------------------

  predicate HasCrlf(s: string) {
    exists i :: 0 <= i < |s| - 1 && s[i] == '\r' && s[i + 1] == '\n'
  }

  lemma {:induction false} UnifyShortens(s: string)
    ensures HasCrlf(s) <==> |Unify(s)| < |s|
    ensures !HasCrlf(s) ==> Unify(s) == s
  {
    if s == [] {
    } else if |s| >= 2 && s[0] == '\r' && s[1] == '\n' {
      assert HasCrlf(s);
    } else {
      UnifyShortens(s[1..]);
      HasCrlfBeyond(s);
      assert s == [s[0]] + s[1..];
    }
  }

  lemma HasCrlfBeyond(s: string)
    requires s != [] && !(|s| >= 2 && s[0] == '\r' && s[1] == '\n')
    ensures HasCrlf(s) <==> HasCrlf(s[1..])
  {
    if HasCrlf(s[1..]) {
      var i :| 0 <= i < |s[1..]| - 1 && s[1..][i] == '\r' && s[1..][i + 1] == '\n';
      assert s[i + 1] == '\r' && s[i + 2] == '\n';
    }
    if HasCrlf(s) {
      var i :| 0 <= i < |s| - 1 && s[i] == '\r' && s[i + 1] == '\n';
      assert s[1..][i - 1] == '\r' && s[1..][i] == '\n';
    }
  }

  lemma UnifyStep(c: char, s: string)
    requires c == '\r' && s != [] ==> s[0] != '\n'
    ensures Unify([c] + s) == [c] + Unify(s)
  {
    assert ([c] + s)[1..] == s;
  }

  lemma UnifyLineEnd(s: string)
    ensures Unify("\r\n" + s) == "\n" + Unify(s)
  {
    assert ("\r\n" + s)[2..] == s;
  }

  lemma {:induction false} UnifyConcat(a: string, b: string)
    requires a != [] && b != [] ==> !(Last(a) == '\r' && b[0] == '\n')
    ensures Unify(a + b) == Unify(a) + Unify(b)
  {
    hide Unify;
    if a == [] {
      assert a + b == b && Unify([]) == [] by { UnifyNothing(); }
    } else if |a| >= 2 && a[0] == '\r' && a[1] == '\n' {
      var rest := a[2..];
      assert a == "\r\n" + rest && a + b == "\r\n" + (rest + b);
      UnifyConcat(rest, b);
      UnifyLineEnd(rest);
      UnifyLineEnd(rest + b);
    } else {
      var rest := a[1..];
      assert a == [a[0]] + rest && a + b == [a[0]] + (rest + b);
      UnifyConcat(rest, b);
      UnifyStep(a[0], rest);
      UnifyStep(a[0], rest + b);
    }
  }

  lemma UnifyNothing()
    ensures Unify([]) == []
  {
  }

  lemma {:induction false} UnifyKeepsEnds(s: string)
    requires s != [] && !Space(Last(s))
    ensures Unify(s) != [] && Last(Unify(s)) == Last(s)
    ensures !Space(s[0]) ==> Unify(s)[0] == s[0]
  {
    hide Space, Unify;
    LineEndsAreSpace();
    UnifyNothing();
    if |s| >= 2 && s[0] == '\r' && s[1] == '\n' {
      assert s == "\r\n" + s[2..] && Last(s) == Last(s[2..]);
      UnifyLineEnd(s[2..]);
      UnifyKeepsEnds(s[2..]);
    } else {
      assert s == [s[0]] + s[1..];
      UnifyStep(s[0], s[1..]);
      if |s| > 1 { UnifyKeepsEnds(s[1..]); }
    }
  }

  lemma LineEndsAreSpace()
    ensures Space('\r') && Space('\n')
  {
  }

  function Unified(p: seq<Section>): (r: seq<Section>)
    ensures |r| == |p| && forall i :: 0 <= i < |p| ==> r[i] == Section(p[i].key, Unify(p[i].value))
  {
    if p == [] then [] else [Section(p[0].key, Unify(p[0].value))] + Unified(p[1..])
  }

  lemma UnifiedPage(p: seq<Section>)
    requires Page(p)
    ensures Page(Unified(p))
  {
    hide Space;
    forall i | 0 <= i < |p|
      ensures Trimmed(Unify(p[i].value)) && Unify(p[i].value) != ""
    {
      UnifyKeepsEnds(p[i].value);
    }
  }

  lemma UnifySheet(s: Section)
    requires Titled(s.key) && Trimmed(s.value) && s.value != ""
    ensures Unify(Sheet(s)) == Sheet(Section(s.key, Unify(s.value)))
  {
    hide Space, Unify;
    LineEndsAreSpace();
    var start := "### " + s.key;
    assert Last(start) == Last(s.key);
    NoLineEnds(start);
    NoLineEnds("\n\n");
    NoLineEnds("\n");
    UnifyConcat(start, "\n\n");
    UnifyConcat(start + "\n\n", s.value);
    UnifyConcat(start + "\n\n" + s.value, "\n");
    assert Last(start + "\n\n" + s.value) == Last(s.value);
  }

  lemma NoLineEnds(s: string)
    requires '\n' !in s || s == "\n" || s == "\n\n"
    ensures Unify(s) == s
  {
    UnifyShortens(s);
  }

  lemma {:induction false} UnifyPage(p: seq<Section>)
    requires Page(p)
    ensures Unify(PageText(p)) == PageText(Unified(p))
  {
    hide Space, Unify, Titled, Trimmed, Sheet;
    UnifySheet(p[0]);
    if |p| > 1 {
      UnifyPage(p[1..]);
      NoLineEnds("\n");
      SheetEnds(p[0]);
      UnifyConcat(Sheet(p[0]), "\n");
      UnifyConcat(Sheet(p[0]) + "\n", PageText(p[1..]));
      assert Unified(p)[1..] == Unified(p[1..]);
    }
  }

  lemma SheetEnds(s: Section)
    ensures Sheet(s) != [] && Last(Sheet(s)) == '\n'
  {
  }

  // --- the theorem -------------------------------------------------------------------------------

  function Paper(sections: seq<Section>): (p: seq<Section>)
    ensures |p| == |sections| && forall i :: 0 <= i < |p| ==> p[i] == Section(sections[i].key, Shown(sections[i].value))
  {
    seq(|sections|, i requires 0 <= i < |sections| => Section(sections[i].key, Shown(sections[i].value)))
  }

  lemma {:induction false} PrintedPage(sections: seq<Section>)
    ensures PrintAll(sections) == PageText(Paper(sections))
  {
    hide Shown;
    if |sections| > 1 {
      PrintedPage(sections[1..]);
      assert Paper(sections)[1..] == Paper(sections[1..]);
    }
  }

  ghost predicate Distinct(sections: seq<Section>) {
    forall i, j :: 0 <= i < j < |sections| ==> sections[i].key != sections[j].key
  }

  ghost predicate Printable(sections: seq<Section>) {
    sections != [] && Distinct(sections) && forall i :: 0 <= i < |sections| ==> Titled(sections[i].key)
  }

  /** Reading the printed sections gives every label its text back. */
  ghost predicate Survive(sections: seq<Section>) {
    forall i :: 0 <= i < |sections| ==>
        Lookup(SectionsOf(PrintAll(sections)), sections[i].key) == Some(Shown(sections[i].value))
  }

  /** No text holds a Windows line end, nor a row that would open a heading. */
  predicate Sound(sections: seq<Section>) {
    forall i :: 0 <= i < |sections| ==> !HasCrlf(Shown(sections[i].value)) && Quiet(Paper(sections), i)
  }

  lemma PaperIsPage(sections: seq<Section>)
    requires Printable(sections)
    ensures Page(Paper(sections)) && Page(Unified(Paper(sections)))
    ensures SectionsOf(PrintAll(sections)) == Gather(Scan(PageRows(Unified(Paper(sections)))))
  {
    hide Space, Unify, Titled, Strip, Quiet, Scan, PageRows, PageText, SplitAt;
    NoResponseStands();
    var p := Paper(sections);
    UnifiedPage(p);
    PrintedPage(sections);
    UnifyPage(p);
    forall i | 0 <= i < |p| ensures '\n' !in Unified(p)[i].key { TitledHasNoLineEnd(sections[i].key); }
    RowsOfPage(Unified(p));
  }

  lemma NoResponseStands()
    ensures NO_RESPONSE != "" && Trimmed(NO_RESPONSE)
  {
  }

  lemma TitledHasNoLineEnd(key: string)
    requires Titled(key)
    ensures '\n' !in key
  {
  }

  lemma {:induction false} PutNew(d: seq<Section>, s: Section)
    requires forall i :: 0 <= i < |d| ==> d[i].key != s.key
    ensures Put(d, s) == d + [s]
  {
    if d != [] {
      PutNew(d[1..], s);
      assert d + [s] == [d[0]] + (d[1..] + [s]);
    }
  }

  lemma {:induction false} GatherDistinct(p: seq<Section>)
    requires Distinct(p)
    ensures Gather(p) == p
  {
    if p != [] {
      GatherDistinct(DropLast(p));
      PutNew(DropLast(p), Last(p));
      assert p == DropLast(p) + [Last(p)];
    }
  }

  lemma {:induction false} LookupDistinct(p: seq<Section>, i: nat)
    requires Distinct(p) && i < |p|
    ensures Lookup(p, p[i].key) == Some(p[i].value)
  {
    if i > 0 { LookupDistinct(p[1..], i - 1); }
  }

  lemma SoundSurvives(sections: seq<Section>)
    requires Printable(sections) && Sound(sections)
    ensures SectionsOf(PrintAll(sections)) == Paper(sections) && Survive(sections)
  {
    hide Space, Unify, Titled, Strip, Quiet, Scan, PageRows, PageText, SplitAt, Shown, HasCrlf, SectionsOf, PrintAll,
         Page;
    PaperIsPage(sections);
    var p := Paper(sections);
    forall i | 0 <= i < |p| ensures Unified(p)[i] == p[i] { UnifyShortens(p[i].value); }
    assert Unified(p) == p;
    ScanQuiet(p);
    GatherDistinct(p);
    forall i | 0 <= i < |p| ensures Lookup(p, p[i].key) == Some(p[i].value) { LookupDistinct(p, i); }
  }

  /** A text that could have made the printed body misread. */
  predicate Suspect(value: string) {
    HasCrlf(Shown(value)) || !Calm(Unify(Shown(value)))
  }

  lemma {:induction false} Heaviest(bad: set<nat>, size: seq<nat>) returns (h: nat)
    requires bad != {} && forall i :: i in bad ==> i < |size|
    ensures h in bad && forall i :: i in bad ==> size[i] <= size[h]
  {
    var i :| i in bad;
    h := i;
    if bad != {i} {
      var g := Heaviest(bad - {i}, size);
      if size[i] <= size[g] { h := g; }
    }
  }

  /** `bad` are the texts of the page `p` that are not read back as they were written in `w`. */
  ghost predicate Blames(bad: set<nat>, p: seq<Section>, w: seq<string>) {
    && |w| == |p|
    && (forall i :: i in bad ==> i < |p| && |p[i].value| <= |w[i]| && (!Quiet(p, i) || |p[i].value| < |w[i]|))
    && (forall i :: 0 <= i < |p| && i !in bad ==> Quiet(p, i) && p[i].value == w[i])
    && (forall i, j :: 0 <= i < |p| && 0 <= j < |p| && w[i] == w[j] ==> p[i].value == p[j].value)
  }

  lemma SameText(p: seq<Section>, i: nat, h: nat)
    requires i < |p| && h < |p| && p[i].value == p[h].value && Quiet(p, i) && !Quiet(p, h)
    ensures i == |p| - 1 && h < |p| - 1 && !Calm(p[h].value)
  {
    hide SplitAt, Opens;
  }

  /** Whatever reads as the heaviest bad text is a good last text, read last. */
  lemma OnlyTheLast(bad: set<nat>, p: seq<Section>, w: seq<string>, h: nat, found: seq<Section>, j: nat)
    requires Blames(bad, p, w) && h in bad && forall i :: i in bad ==> |w[i]| <= |w[h]|
    requires j < |found| && Sourced(p, found, j) && found[j].value == w[h]
    ensures j == |found| - 1 && w[|p| - 1] == w[h] && h < |p| - 1 && !Calm(p[h].value) && p[|p| - 1].value == p[h].value
    ensures found[j].key == p[|p| - 1].key || found[j].key == "### " + p[|p| - 1].key
  {
    hide Quiet, Calm;
    var i: nat :| Source(p, found, j, i);
    assert i !in bad && w[i] == w[h];
    SameText(p, i, h);
  }

  lemma SuspectWhere(sections: seq<Section>, i: nat)
    requires i < |sections| && (HasCrlf(Shown(sections[i].value)) || !Quiet(Unified(Paper(sections)), i))
    ensures Suspect(sections[i].value)
  {
    hide Shown, HasCrlf, Unify, SplitAt, Opens;
  }

  function Texts(sections: seq<Section>): (w: seq<string>)
    ensures |w| == |sections| && forall i :: 0 <= i < |w| ==> w[i] == Shown(sections[i].value)
  {
    seq(|sections|, i requires 0 <= i < |sections| => Shown(sections[i].value))
  }

  lemma WhoIsToBlame(sections: seq<Section>) returns (bad: set<nat>)
    ensures Blames(bad, Unified(Paper(sections)), Texts(sections))
    ensures forall i :: i in bad ==> i < |sections| && Suspect(sections[i].value)
    ensures bad == {} ==> Sound(sections)
  {
    hide Shown, HasCrlf, Unify, Quiet, Suspect;
    var p, w := Unified(Paper(sections)), Texts(sections);
    bad := set i: nat | 0 <= i < |sections| && (HasCrlf(w[i]) || !Quiet(p, i));
    forall i: nat | i < |p|
      ensures |p[i].value| <= |w[i]| && (HasCrlf(w[i]) <==> |p[i].value| < |w[i]|)
      ensures !HasCrlf(w[i]) ==> p[i].value == w[i]
    {
      UnifyShortens(w[i]);
    }
    forall i | i in bad ensures Suspect(sections[i].value) { SuspectWhere(sections, i); }
    if bad == {} {
      forall i | 0 <= i < |p| ensures !HasCrlf(w[i]) && Quiet(p, i) && p[i] == Paper(sections)[i] { assert i !in bad; }
      assert p == Paper(sections);
    }
  }

  /** The heaviest bad text is not read back, or it equals a good last text that is not. */
  lemma SomeTextIsLost(bad: set<nat>, p: seq<Section>, w: seq<string>, h: nat, found: seq<Section>)
    requires Blames(bad, p, w) && h in bad && forall i :: i in bad ==> |w[i]| <= |w[h]|
    requires Traced(p, found) && (h < |p| - 1 ==> p[h].key != p[|p| - 1].key)
    ensures var n := |p| - 1;
            || Section(p[h].key, w[h]) !in found
            || (Section(p[n].key, w[n]) !in found && w[n] == w[h] && !Calm(p[h].value) && p[n].value == p[h].value)
  {
    hide Sourced, Blames, Calm;
    var n := |p| - 1;
    assert |w| == |p| && h < |p| by { BlamesBounds(bad, p, w, h); }
    if Section(p[h].key, w[h]) in found {
      var j :| 0 <= j < |found| && found[j] == Section(p[h].key, w[h]);
      assert Sourced(p, found, j);
      OnlyTheLast(bad, p, w, h, found, j);
      if Section(p[n].key, w[n]) in found {
        var k :| 0 <= k < |found| && found[k] == Section(p[n].key, w[n]);
        assert Sourced(p, found, k);
        OnlyTheLast(bad, p, w, h, found, k);
        assert false;
      }
    }
  }

  lemma BlamesBounds(bad: set<nat>, p: seq<Section>, w: seq<string>, h: nat)
    requires Blames(bad, p, w) && h in bad
    ensures |w| == |p| && h < |p|
  {
    hide Quiet;
  }

  lemma LosesAt(sections: seq<Section>, p: seq<Section>, found: seq<Section>) returns (i: nat)
    requires Printable(sections) && !Sound(sections) && p == Unified(Paper(sections)) && Traced(p, found)
    ensures i < |sections| && Suspect(sections[i].value) && Section(sections[i].key, Shown(sections[i].value)) !in found
  {
    hide Shown, Sound, Suspect, Sourced, Blames, Titled, Traced, Unify, Calm, Texts, Sizes, Paper, Unified;
    var w := Texts(sections);
    var bad := WhoIsToBlame(sections);
    var h := Heaviest(bad, Sizes(w));
    assert forall k :: k in bad ==> |w[k]| <= |w[h]|;
    BlamesBounds(bad, p, w, h);
    assert h < |p| - 1 ==> p[h].key != p[|p| - 1].key;
    SomeTextIsLost(bad, p, w, h, found);
    i := h;
    if Section(p[h].key, w[h]) in found {
      i := |p| - 1;
      LastIsSuspect(sections, h);
    }
  }

  /** Where a text could be misread, some such text is really lost. */
  lemma UnsoundLoses(sections: seq<Section>)
    requires Printable(sections) && !Sound(sections)
    ensures exists i :: 0 <= i < |sections| && Suspect(sections[i].value)
                     && Lookup(SectionsOf(PrintAll(sections)), sections[i].key) != Some(Shown(sections[i].value))
  {
    hide Shown, Scan, PageRows, SectionsOf, PrintAll, Sound, Suspect, Page, Titled, Gather, Lookup, Traced;
    PaperIsPage(sections);
    var p := Unified(Paper(sections));
    assert p[0..] == p;
    ScanPage(p, 0);
    var i := LosesAt(sections, p, Scan(PageRows(p)));
  }

  lemma LastIsSuspect(sections: seq<Section>, h: nat)
    requires h < |sections| && !Calm(Unify(Shown(sections[h].value)))
    requires Shown(Last(sections).value) == Shown(sections[h].value)
    ensures Suspect(Last(sections).value)
  {
  }

  function Sizes(w: seq<string>): (r: seq<nat>)
    ensures |r| == |w| && forall i :: 0 <= i < |w| ==> r[i] == |w[i]|
  {
    if w == [] then [] else [|w[0]|] + Sizes(w[1..])
  }

  /** Printed sections survive being read back exactly when no text holds a Windows line end or a heading row. */
  lemma SectionsSurviveExactly(sections: seq<Section>)
    requires Printable(sections)
    ensures Survive(sections) <==> Sound(sections)
  {
    hide Sound, SectionsOf, PrintAll, Shown;
    if Sound(sections) { SoundSurvives(sections); } else { UnsoundLoses(sections); }
  }
}
