/** The outer form of an Issue body: `### label` headings, each followed by its text. */
module IssueSections {
  import opened Prelude
  import opened Text

  datatype Section = Section(key: string, value: string)

  const NO_RESPONSE := "_No response_"

  // --- reading -----------------------------------------------------------------------------------

  /** Windows line ends become plain ones, in one pass. */
  function Unify(s: string): (r: string)
    ensures |r| <= |s|
  {
    if s == [] then []
    else if |s| >= 2 && s[0] == '\r' && s[1] == '\n' then ['\n'] + Unify(s[2..])
    else [s[0]] + Unify(s[1..])
  }

  function Rows(s: string): (r: seq<string>)
    ensures |r| >= 1
  {
    SplitAt(s, AtNewlines)
  }

  function Unlines(rows: seq<string>): string {
    if rows == [] then "" else if |rows| == 1 then rows[0] else rows[0] + "\n" + Unlines(rows[1..])
  }

  predicate Opens(row: string) {
    StartsWith(row, "###") && (|row| > 3 ==> Space(row[3]))
  }

  function LeadBlanks(rows: seq<string>): (n: nat)
    ensures n <= |rows| && (forall i :: 0 <= i < n ==> Blank(rows[i])) && (n < |rows| ==> !Blank(rows[n]))
  {
    if rows == [] || !Blank(rows[0]) then 0 else 1 + LeadBlanks(rows[1..])
  }

  datatype Head = Head(key: string, used: nat)

  /** The heading that begins at the first row, and the rows it takes. The white space after `###` may run over line
      ends: a bare `###` takes its label from the next row that has one. When only white space is left, one more
      character of it than a single blank or the line end makes an empty label. */
  function Heading(rows: seq<string>): (h: Option<Head>)
    requires rows != []
    ensures h.Some? ==> 1 <= h.value.used <= |rows|
  {
    if !Opens(rows[0]) then None
    else if !Blank(rows[0][3..]) then Some(Head(Strip(rows[0][3..]), 1))
    else
      var k := LeadBlanks(rows[1..]);
      if k + 1 < |rows| then Some(Head(Strip(rows[k + 1]), k + 2))
      else if |rows[0]| >= 5 || exists i :: 1 <= i < |rows| && rows[i] != "" then Some(Head("", |rows|))
      else None
  }

  /** Rows before the next heading. */
  function ToNext(rows: seq<string>): (n: nat)
    ensures n <= |rows|
  {
    if rows == [] || Heading(rows).Some? then 0 else 1 + ToNext(rows[1..])
  }

  lemma {:induction false} ToNextIsNext(rows: seq<string>)
    ensures forall j :: 0 <= j < ToNext(rows) ==> Heading(rows[j..]).None?
    ensures ToNext(rows) < |rows| ==> Heading(rows[ToNext(rows)..]).Some?
  {
    hide Heading;
    assert rows[0..] == rows;
    if rows != [] && Heading(rows).None? {
      ToNextIsNext(rows[1..]);
      var n := ToNext(rows);
      assert forall j :: 1 <= j < n ==> rows[j..] == rows[1..][j - 1..];
      assert n < |rows| ==> rows[n..] == rows[1..][n - 1..];
    }
  }

  function Scan(rows: seq<string>): seq<Section>
    decreases |rows|, 0
  {
    if rows == [] then []
    else match Heading(rows)
      case None => Scan(rows[1..])
      case Some(h) => ScanText(h.key, rows[h.used..])
  }

  /** The text under a heading already read, and what follows. */
  function ScanText(key: string, rows: seq<string>): seq<Section>
    decreases |rows|, 1
  {
    var n := ToNext(rows);
    [Section(key, Strip(Unlines(rows[..n])))] + Scan(rows[n..])
  }

  /** A later section of the same label replaces the text of the earlier one, in its place. */
  function Put(d: seq<Section>, s: Section): (r: seq<Section>)
    ensures forall x :: x in r ==> x == s || x in d
  {
    if d == [] then [s] else if d[0].key == s.key then [s] + d[1..] else [d[0]] + Put(d[1..], s)
  }

  function Gather(found: seq<Section>): (r: seq<Section>)
    ensures forall x :: x in r ==> x in found
  {
    if found == [] then [] else Put(Gather(DropLast(found)), Last(found))
  }

  function Lookup(d: seq<Section>, key: string): (r: Option<string>)
    ensures r.Some? ==> Section(key, r.value) in d
  {
    if d == [] then None else if d[0].key == key then Some(d[0].value) else Lookup(d[1..], key)
  }

  function SectionsOf(body: string): seq<Section> {
    Gather(Scan(Rows(Unify(body))))
  }

  method SplitSections(body: string) returns (sections: seq<Section>)
    ensures sections == SectionsOf(body)
  {
    hide Heading, ToNext, Unify, Rows, Strip, Unlines, Put, Blank, Opens;
    var rows := Rows(Unify(body));
    ghost var found: seq<Section> := [];
    sections := [];
    while rows != []
      invariant found + Scan(rows) == Scan(Rows(Unify(body)))
      invariant sections == Gather(found)
      decreases |rows|
    {
      match Heading(rows)
      case None => rows := rows[1..];
      case Some(h) =>
        var text := rows[h.used..];
        var n := ToNext(text);
        var s := Section(h.key, Strip(Unlines(text[..n])));
        assert Scan(rows) == [s] + Scan(text[n..]);
        GatherNext(found, s);
        sections := Put(sections, s);
        assert found + ([s] + Scan(text[n..])) == found + [s] + Scan(text[n..]);
        found := found + [s];
        rows := text[n..];
    }
    assert found + [] == found;
  }

  lemma GatherNext(found: seq<Section>, s: Section)
    ensures Gather(found + [s]) == Put(Gather(found), s)
  {
    assert DropLast(found + [s]) == found;
  }

  // --- writing -----------------------------------------------------------------------------------

  function Shown(value: string): string {
    if Strip(value) == "" then NO_RESPONSE else Strip(value)
  }

  function Print(s: Section): string {
    "### " + s.key + "\n\n" + Shown(s.value) + "\n"
  }

  function PrintAll(sections: seq<Section>): string {
    if sections == [] then ""
    else if |sections| == 1 then Print(sections[0])
    else Print(sections[0]) + "\n" + PrintAll(sections[1..])
  }

  // --- rows and their texts ----------------------------------------------------------------------

  function Weight(rows: seq<string>): nat {
    if rows == [] then 0 else |rows[0]| + 1 + Weight(rows[1..])
  }

  lemma {:induction false} WeightConcat(a: seq<string>, b: seq<string>)
    ensures Weight(a + b) == Weight(a) + Weight(b)
  {
    if a == [] {
      assert a + b == b;
    } else {
      assert (a + b)[1..] == a[1..] + b;
      WeightConcat(a[1..], b);
    }
  }

  lemma {:induction false} UnlinesWeighs(rows: seq<string>)
    ensures |Unlines(rows)| == if rows == [] then 0 else Weight(rows) - 1
  {
    if |rows| > 1 { UnlinesWeighs(rows[1..]); }
    if |rows| == 1 { assert Weight(rows[1..]) == 0; }
  }

  lemma {:induction false} UnlinesRows(s: string)
    ensures Unlines(Rows(s)) == s
  {
    if s != [] {
      UnlinesRows(s[1..]);
      var r := Rows(s[1..]);
      if s[0] == '\n' {
        assert ([""] + r)[1..] == r;
        assert "" + "\n" + Unlines(r) == [s[0]] + s[1..];
      } else {
        Lengthen(s[0], r);
        assert [s[0]] + s[1..] == s;
      }
    }
  }

  lemma Lengthen(c: char, rows: seq<string>)
    requires rows != []
    ensures Unlines([[c] + rows[0]] + rows[1..]) == [c] + Unlines(rows)
  {
    var longer := [[c] + rows[0]] + rows[1..];
    assert longer[1..] == rows[1..];
    if |rows| > 1 { assert ([c] + rows[0]) + "\n" + Unlines(rows[1..]) == [c] + (rows[0] + "\n" + Unlines(rows[1..])); }
  }

  lemma {:induction false} UnlinesFramed(rows: seq<string>)
    requires rows != []
    ensures Unlines([""] + rows + [""]) == "\n" + Unlines(rows) + "\n"
  {
    UnlinesEnded(rows);
    assert ([""] + rows + [""])[1..] == rows + [""];
  }

  lemma {:induction false} UnlinesEnded(rows: seq<string>)
    requires rows != []
    ensures Unlines(rows + [""]) == Unlines(rows) + "\n"
  {
    if |rows| == 1 {
      assert (rows + [""])[1..] == [""];
    } else {
      UnlinesEnded(rows[1..]);
      assert (rows + [""])[1..] == rows[1..] + [""];
    }
  }

  lemma {:induction false} LastRow(s: string)
    requires s != [] && !Space(Last(s))
    ensures Last(Rows(s)) != "" && !Space(Last(Last(Rows(s))))
  {
    if |s| > 1 {
      assert Last(s[1..]) == Last(s);
      LastRow(s[1..]);
    } else {
      assert Rows(s[1..]) == [""];
    }
  }
}
