/** The browser's incremental event-stream decoder: blank-line separated frames arriving in arbitrary chunks. */
module EventStream {
  import opened Prelude

  /** A decoded payload, as far as the decoder itself looks at it. */
  datatype Json = Null | Falsy(text: string) | Truthy(text: string)

  datatype Progress = Progress(reported: seq<Json>, plan: Option<Json>, failure: Option<Json>, threw: bool)

  datatype Outcome = Threw | Failed(payload: Json) | Planned(payload: Json) | StreamIncomplete

  const SEPARATOR := "\n\n"
  const NOTHING := Progress([], None, None, false)

  // --- frames ------------------------------------------------------------------------------------

  predicate SeparatorAt(s: string, i: nat) {
    i + 2 <= |s| && s[i] == '\n' && s[i + 1] == '\n'
  }

  /** Position of the first blank line at or behind `from`, -1 when there is none. */
  function FirstFrom(s: string, from: nat): (i: int)
    ensures i >= 0 ==> i >= from && SeparatorAt(s, i)
    ensures i < 0 ==> i == -1
    ensures forall j: nat :: from <= j && (i < 0 || j < i) ==> !SeparatorAt(s, j)
    decreases |s| - from
  {
    if from + 2 > |s| then -1 else if SeparatorAt(s, from) then from else FirstFrom(s, from + 1)
  }

  function FirstSeparator(s: string): int {
    FirstFrom(s, 0)
  }

  /** All complete frames of a text and the unterminated tail behind them. */
  function Frames(s: string): (r: (seq<string>, string))
    decreases |s|
  {
    var i := FirstSeparator(s);
    if i < 0 then ([], s)
    else
      var (rest, tail) := Frames(s[i + 2..]);
      ([s[..i]] + rest, tail)
  }

  lemma FramesStep(s: string)
    requires FirstSeparator(s) >= 0
    ensures var i := FirstSeparator(s); Frames(s) == ([s[..i]] + Frames(s[i + 2..]).0, Frames(s[i + 2..]).1)
  {
  }

  function Rebuilt(frames: seq<string>): string {
    if frames == [] then "" else frames[0] + SEPARATOR + Rebuilt(frames[1..])
  }

  lemma Respell(s: string, i: nat, rest: string, tail: string)
    requires SeparatorAt(s, i) && rest + tail == s[i + 2..]
    ensures s[..i] + SEPARATOR + rest + tail == s
  {
    assert s[..i] + SEPARATOR + rest + tail == s[..i] + SEPARATOR + (rest + tail);
    assert s == s[..i] + s[i..i + 2] + s[i + 2..];
  }

  /** Nothing is lost or invented: the frames and the tail spell the text. */
  lemma {:induction false} FramesSpellText(s: string)
    ensures Rebuilt(Frames(s).0) + Frames(s).1 == s
    decreases |s|
  {
    var i := FirstSeparator(s);
    if i >= 0 {
      FramesStep(s);
      FramesSpellText(s[i + 2..]);
      var (rest, tail) := Frames(s[i + 2..]);
      var frames := [s[..i]] + rest;
      assert frames[1..] == rest;
      Respell(s, i, Rebuilt(rest), tail);
    }
  }

  lemma NoSeparatorBeforeFirst(s: string)
    requires FirstSeparator(s) >= 0
    ensures FirstSeparator(s[..FirstSeparator(s)]) < 0
  {
    var i := FirstSeparator(s);
    var j := FirstSeparator(s[..i]);
    assert j >= 0 ==> SeparatorAt(s, j);
  }

  /** No frame and no tail hides a blank line. */
  lemma {:induction false} FramesAreWhole(s: string)
    ensures FirstSeparator(Frames(s).1) < 0 && forall f :: f in Frames(s).0 ==> FirstSeparator(f) < 0
    decreases |s|
  {
    var i := FirstSeparator(s);
    if i >= 0 {
      FramesStep(s);
      NoSeparatorBeforeFirst(s);
      FramesAreWhole(s[i + 2..]);
    }
  }

  lemma FirstInPieces(a: string, b: string)
    requires FirstSeparator(a) >= 0
    ensures FirstSeparator(a + b) == FirstSeparator(a)
  {
    var i, k := FirstSeparator(a), FirstSeparator(a + b);
    assert SeparatorAt(a + b, i);
    assert k < i ==> SeparatorAt(a, k);
  }

  lemma CutBehind(a: string, b: string, i: nat)
    requires i + 2 <= |a|
    ensures (a + b)[i + 2..] == a[i + 2..] + b && (a + b)[..i] == a[..i]
  {
  }

  lemma Prepend(x: string, fa: seq<string>, fb: seq<string>)
    ensures [x] + (fa + fb) == ([x] + fa) + fb
  {
  }

  /** Decoding a text in two pieces, the first one's tail kept in the buffer, decodes the whole. */
  lemma {:induction false} FramesInPieces(a: string, b: string)
    ensures var (fa, tail) := Frames(a); var (fb, rest) := Frames(tail + b);
            Frames(a + b) == (fa + fb, rest)
    decreases |a|
  {
    var i := FirstSeparator(a);
    if i >= 0 {
      FirstInPieces(a, b);
      FramesStep(a);
      FramesStep(a + b);
      CutBehind(a, b, i);
      FramesInPieces(a[i + 2..], b);
      Prepend(a[..i], Frames(a[i + 2..]).0, Frames(Frames(a[i + 2..]).1 + b).0);
    } else {
      assert [] + Frames(a + b).0 == Frames(a + b).0;
    }
  }

  // --- one frame ---------------------------------------------------------------------------------

  /** What `trim` removes: JavaScript's white space and line ends. */
  predicate IsSpace(c: char) {
    || '\t' <= c <= '\r' || c == ' ' || c == '\U{00A0}' || c == '\U{1680}' || '\U{2000}' <= c <= '\U{200A}'
    || '\U{2028}' <= c <= '\U{2029}' || c == '\U{202F}' || c == '\U{205F}' || c == '\U{3000}' || c == '\U{FEFF}'
  }

  function TrimLeft(s: string): string {
    if s != [] && IsSpace(s[0]) then TrimLeft(s[1..]) else s
  }

  function TrimRight(s: string): string {
    if s != [] && IsSpace(Last(s)) then TrimRight(DropLast(s)) else s
  }

  function Trim(s: string): string {
    TrimRight(TrimLeft(s))
  }

  function Lines(s: string): (r: seq<string>)
    ensures r != []
  {
    if s == [] then [""]
    else
      var rest := Lines(s[1..]);
      if s[0] == '\n' then [""] + rest else [[s[0]] + rest[0]] + rest[1..]
  }

  datatype Frame = Frame(event: string, data: seq<string>)

  function ReadLine(f: Frame, line: string): Frame {
    if StartsWith(line, "event:") then f.(event := Trim(line[6..]))
    else if StartsWith(line, "data:") then f.(data := f.data + [Trim(line[5..])])
    else f
  }

  function ReadLines(lines: seq<string>): Frame {
    if lines == [] then Frame("message", []) else ReadLine(ReadLines(DropLast(lines)), Last(lines))
  }

  function JoinLines(data: seq<string>): string {
    if data == [] then "" else if |data| == 1 then data[0] else data[0] + "\n" + JoinLines(data[1..])
  }

  /** Dispatch one frame. `parse` is the JSON parser, `None` where it throws. */
  function Handle(p: Progress, frame: string, parse: string -> Option<Json>): Progress {
    var f := ReadLines(Lines(frame));
    if p.threw || f.data == [] then p
    else match parse(JoinLines(f.data))
      case None => p.(threw := true)
      case Some(payload) =>
        if f.event == "progress" then p.(reported := p.reported + [payload])
        else if f.event == "done" then p.(plan := Some(payload))
        else if f.event == "error" then if payload.Null? then p.(threw := true) else p.(failure := Some(payload))
        else p
  }

  function HandleAll(p: Progress, frames: seq<string>, parse: string -> Option<Json>): Progress {
    if frames == [] then p else Handle(HandleAll(p, DropLast(frames), parse), Last(frames), parse)
  }

  /** A failure beats a plan, a plan beats an ended stream; a null or empty plan counts as none. */
  function OutcomeOf(p: Progress): Outcome {
    if p.threw then Threw
    else if p.failure.Some? then Failed(p.failure.value)
    else if p.plan.Some? && p.plan.value.Truthy? then Planned(p.plan.value)
    else StreamIncomplete
  }

  lemma {:induction false} HandleAllSplits(p: Progress, a: seq<string>, b: seq<string>, parse: string -> Option<Json>)
    ensures HandleAll(p, a + b, parse) == HandleAll(HandleAll(p, a, parse), b, parse)
  {
    if b == [] {
      assert a + b == a;
    } else {
      assert DropLast(a + b) == a + DropLast(b);
      HandleAllSplits(p, a, DropLast(b), parse);
    }
  }

  lemma {:induction false} ThrownStays(p: Progress, frames: seq<string>, parse: string -> Option<Json>)
    requires p.threw
    ensures HandleAll(p, frames, parse) == p
  {
    if frames != [] { ThrownStays(p, DropLast(frames), parse); }
  }

  // --- the stream --------------------------------------------------------------------------------

  function Joined(chunks: seq<string>): string {
    if chunks == [] then "" else Joined(DropLast(chunks)) + Last(chunks)
  }

  /** The frames of the whole text, handled in order. */
  function Decoded(text: string, parse: string -> Option<Json>): Progress {
    HandleAll(NOTHING, Frames(text).0, parse)
  }

  method HandleFrame(p: Progress, frame: string, parse: string -> Option<Json>) returns (r: Progress)
    ensures r == Handle(p, frame, parse)
  {
    if p.threw { return p; }
    var lines := Lines(frame);
    var event, data: seq<string> := "message", [];
    for i := 0 to |lines|
      invariant Frame(event, data) == ReadLines(lines[..i])
    {
      assert DropLast(lines[..i + 1]) == lines[..i];
      if StartsWith(lines[i], "event:") {
        event := Trim(lines[i][6..]);
      } else if StartsWith(lines[i], "data:") {
        data := data + [Trim(lines[i][5..])];
      }
    }
    assert lines[..|lines|] == lines;
    if data == [] { return p; }
    var payload := parse(JoinLines(data));
    if payload.None? { return p.(threw := true); }
    r := p;
    if event == "progress" { r := r.(reported := r.reported + [payload.value]); }
    else if event == "done" { r := r.(plan := Some(payload.value)); }
    else if event == "error" {
      if payload.value.Null? { r := r.(threw := true); } else { r := r.(failure := Some(payload.value)); }
    }
  }

  /** Dispatches every complete frame in the buffer; the partial one behind them stays. */
  method Drain(p: Progress, buffer: string, parse: string -> Option<Json>) returns (r: Progress, tail: string)
    requires !p.threw
    ensures r == HandleAll(p, Frames(buffer).0, parse)
    ensures !r.threw ==> tail == Frames(buffer).1
  {
    r, tail := p, buffer;
    ghost var done: seq<string> := [];
    assert done + Frames(buffer).0 == Frames(buffer).0;
    var split := FirstSeparator(tail);
    while split != -1
      invariant split == FirstSeparator(tail) && !r.threw
      invariant Frames(buffer) == (done + Frames(tail).0, Frames(tail).1)
      invariant r == HandleAll(p, done, parse)
      decreases |tail|
    {
      FramesStep(tail);
      var frame := tail[..split];
      r := HandleFrame(r, frame, parse);
      tail := tail[split + 2..];
      assert done + ([frame] + Frames(tail).0) == (done + [frame]) + Frames(tail).0;
      assert DropLast(done + [frame]) == done;
      done := done + [frame];
      if r.threw {
        HandleAllSplits(p, done, Frames(tail).0, parse);
        ThrownStays(r, Frames(tail).0, parse);
        return;
      }
      split := FirstSeparator(tail);
    }
    assert done + Frames(tail).0 == done;
  }

  /** Reads the chunks as they come. Chunking independence: what is reported and how it ends depend only on the
      text the chunks spell, wherever they were cut (inside the blank-line separator included). */
  method Receive(chunks: seq<string>, parse: string -> Option<Json>) returns (p: Progress, outcome: Outcome)
    ensures p == Decoded(Joined(chunks), parse)
    ensures outcome == OutcomeOf(Decoded(Joined(chunks), parse))
  {
    p := NOTHING;
    var buffer := "";
    for i := 0 to |chunks|
      invariant p == Decoded(Joined(chunks[..i]), parse) && !p.threw
      invariant buffer == Frames(Joined(chunks[..i])).1
    {
      ghost var before := Joined(chunks[..i]);
      assert DropLast(chunks[..i + 1]) == chunks[..i];
      FramesInPieces(before, chunks[i]);
      HandleAllSplits(NOTHING, Frames(before).0, Frames(buffer + chunks[i]).0, parse);
      p, buffer := Drain(p, buffer + chunks[i], parse);
      if p.threw {
        ThrewEarly(chunks, i + 1, parse);
        return p, Threw;
      }
    }
    assert chunks[..|chunks|] == chunks;
    outcome := OutcomeOf(p);
  }

  lemma {:induction false} FramesOfPrefix(chunks: seq<string>, i: nat)
    requires i <= |chunks|
    ensures Frames(Joined(chunks[..i])).0 <= Frames(Joined(chunks)).0
    decreases |chunks| - i
  {
    if i == |chunks| {
      assert chunks[..i] == chunks;
    } else {
      assert DropLast(chunks[..i + 1]) == chunks[..i];
      FramesInPieces(Joined(chunks[..i]), chunks[i]);
      FramesOfPrefix(chunks, i + 1);
    }
  }

  /** Once a frame threw, the rest of the text cannot change what was handled. */
  lemma ThrewEarly(chunks: seq<string>, i: nat, parse: string -> Option<Json>)
    requires i <= |chunks| && Decoded(Joined(chunks[..i]), parse).threw
    ensures Decoded(Joined(chunks), parse) == Decoded(Joined(chunks[..i]), parse)
  {
    hide Frames, HandleAll, Handle, Joined;
    FramesOfPrefix(chunks, i);
    var handled, all := Frames(Joined(chunks[..i])).0, Frames(Joined(chunks)).0;
    assert all == handled + all[|handled|..];
    HandleAllSplits(NOTHING, handled, all[|handled|..], parse);
    ThrownStays(HandleAll(NOTHING, handled, parse), all[|handled|..], parse);
  }
}
