/** BuildSmart's own room requirements win over whatever program a model produced, and their area is reserved
    before the model is asked. */
module AuthoritativeMerge {
  import opened Prelude

  datatype Source = FromModel | UserRequirement

  /** `bounds` stands for the item's further columns, which the merge never changes. */
  datatype Item = Item(room: string, count: nat, area: Option<real>, minWidth: Option<real>, bounds: string,
      source: Source)
  datatype Zone = Zone(name: string, rooms: seq<string>)
  datatype Relation = Relation(direct: bool, a: string, b: string, source: Source)

  datatype Required = Required(room: string, known: bool, count: nat)

  /** The part of a specification the merge rebinds. */
  datatype Parts = Parts(program: seq<Item>, zones: seq<Zone>, relations: seq<Relation>, incomplete: seq<string>)
  datatype Spec = Spec(parts: Parts, entry: Option<string>)

  function TargetArea(room: string): Option<real> {
    match room
    case "kitchen" => Some(12.0) case "bathroom" => Some(5.0) case "safe_room" => Some(9.0)
    case "living_room" => Some(20.0) case "bedroom" => Some(12.0) case _ => None
  }

  function MinWidth(room: string): Option<real> {
    match room
    case "kitchen" => Some(2.4) case "bathroom" => Some(1.6) case "safe_room" => Some(2.2)
    case "living_room" => Some(3.0) case "bedroom" => Some(2.6) case _ => None
  }

  const MODEL_VOCABULARY: set<string> := {
    "bedroom", "master_bedroom", "bathroom", "wc", "living_room", "kitchen", "dining", "balcony", "corridor",
    "entrance", "storage", "utility", "staircase", "parking"}

  // --- removing a room type ----------------------------------------------------------------------

  function Others(program: seq<Item>, room: string): (r: seq<Item>)
    ensures forall i :: i in r <==> i in program && i.room != room
  {
    if program == [] then [] else (if program[0].room == room then [] else [program[0]]) + Others(program[1..], room)
  }

  function OtherRooms(rooms: seq<string>, room: string): (r: seq<string>)
    ensures forall x :: x in r <==> x in rooms && x != room
    ensures room !in rooms ==> r == rooms
  {
    if rooms == [] then []
    else
      assert rooms == [rooms[0]] + rooms[1..];
      (if rooms[0] == room then [] else [rooms[0]]) + OtherRooms(rooms[1..], room)
  }

  function StripZones(zones: seq<Zone>, room: string): (r: seq<Zone>)
    ensures |r| == |zones|
    ensures forall i :: 0 <= i < |zones| ==> r[i] == Zone(zones[i].name, OtherRooms(zones[i].rooms, room))
    ensures (forall z :: z in zones ==> room !in z.rooms) ==> r == zones
  {
    if zones == [] then []
    else
      assert zones == [zones[0]] + zones[1..];
      [Zone(zones[0].name, OtherRooms(zones[0].rooms, room))] + StripZones(zones[1..], room)
  }

  predicate Mentions(rel: Relation, room: string) {
    rel.a == room || rel.b == room
  }

  function OtherRelations(relations: seq<Relation>, room: string): (r: seq<Relation>)
    ensures forall x :: x in r <==> x in relations && !Mentions(x, room)
    ensures (forall x :: x in relations ==> !Mentions(x, room)) ==> r == relations
  {
    if relations == [] then []
    else
      assert relations == [relations[0]] + relations[1..];
      (if Mentions(relations[0], room) then [] else [relations[0]]) + OtherRelations(relations[1..], room)
  }

  function Strip(p: Parts, room: string): Parts {
    p.(program := Others(p.program, room), zones := StripZones(p.zones, room),
        relations := OtherRelations(p.relations, room))
  }

  // --- requiring a room type ---------------------------------------------------------------------

  function Total(program: seq<Item>, room: string): nat {
    if program == [] then 0 else (if program[0].room == room then program[0].count else 0) + Total(program[1..], room)
  }

  predicate Present(program: seq<Item>, room: string) {
    exists i :: i in program && i.room == room
  }

  function Stamped(item: Item, room: string): Item {
    if item.room == room then item.(source := UserRequirement) else item
  }

  function Stamp(program: seq<Item>, room: string): (r: seq<Item>)
    ensures |r| == |program|
    ensures forall i :: 0 <= i < |program| ==> r[i] == Stamped(program[i], room)
  {
    if program == [] then [] else [Stamped(program[0], room)] + Stamp(program[1..], room)
  }

  function DefaultZone(room: string): string {
    if room in {"bedroom", "safe_room"} then "private" else "public"
  }

  function ZoneIndex(zones: seq<Zone>, name: string): (i: nat)
    ensures i <= |zones| && (i < |zones| ==> zones[i].name == name)
  {
    if zones == [] then 0 else if zones[0].name == name then 0 else 1 + ZoneIndex(zones[1..], name)
  }

  function FileInZone(zones: seq<Zone>, room: string): seq<Zone> {
    if exists z :: z in zones && room in z.rooms then zones
    else
      var i := ZoneIndex(zones, DefaultZone(room));
      if i < |zones| then zones[i := zones[i].(rooms := zones[i].rooms + [room])]
      else zones + [Zone(DefaultZone(room), [room])]
  }

  function NewItem(room: string, count: nat): Item {
    Item(room, count, TargetArea(room), MinWidth(room), "", UserRequirement)
  }

  function Ensure(p: Parts, room: string, count: nat): Parts {
    if Present(p.program, room) && Total(p.program, room) == count then p.(program := Stamp(p.program, room))
    else
      p.(program := Others(p.program, room) + [NewItem(room, count)], zones := FileInZone(p.zones, room))
  }

  // --- the merge ---------------------------------------------------------------------------------

  function Enforce(c: Required, p: Parts): Parts {
    if !c.known then
      var s := Strip(p, c.room);
      if c.room in s.incomplete then s else s.(incomplete := s.incomplete + [c.room])
    else if c.count == 0 then Strip(p, c.room)
    else Ensure(p, c.room, c.count)
  }

  function EnforceAll(cs: seq<Required>, p: Parts): Parts {
    if cs == [] then p else Enforce(Last(cs), EnforceAll(DropLast(cs), p))
  }

  predicate Linked(relations: seq<Relation>) {
    exists r :: r in relations && r.direct && {r.a, r.b} == {"safe_room", "bedroom"}
  }

  function Link(p: Parts): Parts {
    if Present(p.program, "safe_room") && Present(p.program, "bedroom") && !Linked(p.relations)
    then p.(relations := p.relations + [Relation(true, "safe_room", "bedroom", UserRequirement)]) else p
  }

  function Merged(s: Spec, cs: seq<Required>): Spec {
    Spec(Link(EnforceAll(cs, s.parts)), s.entry)
  }

  method MergeAuthoritativeRequirements(s: Spec, cs: seq<Required>) returns (r: Spec)
    ensures r == Merged(s, cs)
  {
    var p := s.parts;
    for i := 0 to |cs|
      invariant p == EnforceAll(cs[..i], s.parts)
    {
      assert DropLast(cs[..i + 1]) == cs[..i];
      var c := cs[i];
      if c.known && c.count > 0 {
        p := Ensure(p, c.room, c.count);
      } else {
        p := Strip(p, c.room);
        if !c.known && c.room !in p.incomplete { p := p.(incomplete := p.incomplete + [c.room]); }
      }
    }
    assert cs[..|cs|] == cs;
    r := Spec(Link(p), s.entry);
  }

  // --- what it guarantees ------------------------------------------------------------------------

  ghost predicate Absent(p: Parts, room: string) {
    && !Present(p.program, room)
    && (forall z :: z in p.zones ==> room !in z.rooms)
    && (forall r :: r in p.relations ==> !Mentions(r, room))
  }

  /** A requirement holds of a specification's parts. */
  ghost predicate Satisfied(c: Required, p: Parts) {
    if c.known && c.count > 0 then
      Vouched(p.program, c.room, c.count)
    else
      Absent(p, c.room) && (!c.known ==> c.room in p.incomplete)
  }

  ghost predicate DistinctRooms(cs: seq<Required>) {
    forall i, j :: 0 <= i < j < |cs| ==> cs[i].room != cs[j].room
  }

  lemma {:induction false} TotalOfOthers(program: seq<Item>, room: string, other: string)
    ensures Total(Others(program, room), other) == if other == room then 0 else Total(program, other)
  {
    if program != [] {
      TotalOfOthers(program[1..], room, other);
      var kept := Others(program[1..], room);
      if program[0].room != room { assert ([program[0]] + kept)[1..] == kept; } else { assert [] + kept == kept; }
    }
  }

  lemma {:induction false} TotalOfConcat(a: seq<Item>, item: Item, room: string)
    ensures Total(a + [item], room) == Total(a, room) + if item.room == room then item.count else 0
  {
    if a == [] {
      assert a + [item] == [item] && [item][1..] == [];
    } else {
      assert (a + [item])[1..] == a[1..] + [item];
      TotalOfConcat(a[1..], item, room);
    }
  }

  lemma {:induction false} TotalOfStamp(program: seq<Item>, room: string, other: string)
    ensures Total(Stamp(program, room), other) == Total(program, other)
  {
    if program != [] {
      TotalOfStamp(program[1..], room, other);
      assert Stamp(program, room)[1..] == Stamp(program[1..], room);
    }
  }

  lemma {:induction false} FiledRooms(zones: seq<Zone>, room: string)
    ensures forall z, x :: z in FileInZone(zones, room) && x in z.rooms ==>
              x == room || exists y :: y in zones && x in y.rooms
  {
    var filed := FileInZone(zones, room);
    forall z, x | z in filed && x in z.rooms ensures x == room || exists y :: y in zones && x in y.rooms {
      var i :| 0 <= i < |filed| && filed[i] == z;
      if i < |zones| { assert zones[i] in zones; }
    }
  }

  lemma {:induction false} StripIsAbsent(p: Parts, room: string)
    ensures Absent(Strip(p, room), room)
  {
    forall z | z in StripZones(p.zones, room) ensures room !in z.rooms {
      var i :| 0 <= i < |p.zones| && StripZones(p.zones, room)[i] == z;
    }
  }

  /** Exactly `count` rooms of the type, every one vouched for by the user requirement. */
  ghost predicate Vouched(program: seq<Item>, room: string, count: nat) {
    && Present(program, room) && Total(program, room) == count
    && forall i :: i in program && i.room == room ==> i.source == UserRequirement
  }

  lemma {:induction false} StampVouches(program: seq<Item>, room: string)
    requires Present(program, room)
    ensures Vouched(Stamp(program, room), room, Total(program, room))
  {
    TotalOfStamp(program, room, room);
    StampedItems(program, room, Stamp(program, room));
  }

  lemma StampedItems(program: seq<Item>, room: string, stamped: seq<Item>)
    requires |stamped| == |program|
    requires forall i :: 0 <= i < |program| ==>
               stamped[i] == if program[i].room == room then program[i].(source := UserRequirement) else program[i]
    ensures Present(program, room) ==> Present(stamped, room)
    ensures forall i :: i in stamped && i.room == room ==> i.source == UserRequirement
  {
    if Present(program, room) {
      var k :| 0 <= k < |program| && program[k].room == room;
      assert stamped[k] in stamped && stamped[k].room == room;
    }
  }

  lemma {:induction false} ReplacementVouches(program: seq<Item>, item: Item)
    requires item.source == UserRequirement
    ensures Vouched(Others(program, item.room) + [item], item.room, item.count)
  {
    TotalOfOthers(program, item.room, item.room);
    TotalOfConcat(Others(program, item.room), item, item.room);
    assert item in Others(program, item.room) + [item];
  }

  lemma {:induction false} EnforceSatisfies(c: Required, p: Parts)
    ensures Satisfied(c, Enforce(c, p))
  {
    if c.known && c.count > 0 {
      if Present(p.program, c.room) && Total(p.program, c.room) == c.count {
        StampVouches(p.program, c.room);
      } else {
        ReplacementVouches(p.program, NewItem(c.room, c.count));
      }
    } else {
      StripIsAbsent(p, c.room);
    }
  }

  lemma {:induction false} PresenceElsewhere(c: Required, p: Parts, room: string)
    requires room != c.room
    ensures Total(Enforce(c, p).program, room) == Total(p.program, room)
    ensures forall i :: i in Enforce(c, p).program && i.room == room <==> i in p.program && i.room == room
  {
    TotalOfStamp(p.program, c.room, room);
    TotalOfOthers(p.program, c.room, room);
    TotalOfConcat(Others(p.program, c.room), NewItem(c.room, c.count), room);
    if c.known && c.count > 0 && Present(p.program, c.room) && Total(p.program, c.room) == c.count {
      var stamped := Stamp(p.program, c.room);
      forall i ensures i in stamped && i.room == room <==> i in p.program && i.room == room {
        if i in p.program && i.room == room {
          var k :| 0 <= k < |p.program| && p.program[k] == i;
          assert stamped[k] == i;
        }
      }
    }
  }

  lemma {:induction false} AbsenceKept(c: Required, p: Parts, room: string)
    requires room != c.room && Absent(p, room)
    ensures Absent(Enforce(c, p), room)
  {
    PresenceElsewhere(c, p, room);
    ZonesWithout(p.zones, c.room, room);
  }

  lemma {:induction false} ZonesWithout(zones: seq<Zone>, changed: string, room: string)
    requires room != changed && forall z :: z in zones ==> room !in z.rooms
    ensures forall z :: z in StripZones(zones, changed) ==> room !in z.rooms
    ensures forall z :: z in FileInZone(zones, changed) ==> room !in z.rooms
  {
    FiledRooms(zones, changed);
    forall z | z in StripZones(zones, changed) ensures room !in z.rooms {
      var i :| 0 <= i < |zones| && StripZones(zones, changed)[i] == z;
      assert zones[i] in zones;
    }
  }

  lemma {:induction false} SatisfiedKept(c: Required, p: Parts, d: Required)
    requires d.room != c.room && Satisfied(d, p)
    ensures Satisfied(d, Enforce(c, p))
  {
    PresenceElsewhere(c, p, d.room);
    if d.known && d.count > 0 {
      var i :| i in p.program && i.room == d.room;
      assert i in Enforce(c, p).program;
    } else {
      AbsenceKept(c, p, d.room);
    }
  }

  lemma {:induction false} AllSatisfied(cs: seq<Required>, p: Parts)
    requires DistinctRooms(cs)
    ensures forall c :: c in cs ==> Satisfied(c, EnforceAll(cs, p))
  {
    if cs != [] {
      AllSatisfied(DropLast(cs), p);
      OneMoreSatisfied(cs, EnforceAll(DropLast(cs), p), EnforceAll(cs, p));
    }
  }

  lemma {:induction false} OneMoreSatisfied(cs: seq<Required>, before: Parts, after: Parts)
    requires cs != [] && DistinctRooms(cs) && after == Enforce(Last(cs), before)
    requires forall c :: c in DropLast(cs) ==> Satisfied(c, before)
    ensures forall c :: c in cs ==> Satisfied(c, after)
  {
    forall c | c in cs ensures Satisfied(c, after) {
      if c != Last(cs) { ElsewhereInList(cs, c); }
      NextSatisfied(Last(cs), c, before, after);
    }
  }

  lemma ElsewhereInList(cs: seq<Required>, c: Required)
    requires cs != [] && DistinctRooms(cs) && c in cs && c != Last(cs)
    ensures c in DropLast(cs) && c.room != Last(cs).room
  {
    var i :| 0 <= i < |cs| && cs[i] == c;
    assert DropLast(cs)[i] == c;
  }

  lemma {:induction false} NextSatisfied(last: Required, c: Required, before: Parts, after: Parts)
    requires after == Enforce(last, before) && (c == last || (c.room != last.room && Satisfied(c, before)))
    ensures Satisfied(c, after)
  {
    if c == last { EnforceSatisfies(c, before); } else { SatisfiedKept(last, before, c); }
  }

  lemma LinkKeepsSatisfied(c: Required, p: Parts)
    requires Satisfied(c, p)
    ensures Satisfied(c, Link(p))
  {
  }

  /** Every requirement on a distinct room type holds of the merged specification: exact counts vouched for by the
      user requirement, or no trace of the type left in program, zones and relationships. */
  lemma MergeEnforcesRequirements(s: Spec, cs: seq<Required>, c: Required)
    requires DistinctRooms(cs) && c in cs
    ensures Satisfied(c, Merged(s, cs).parts)
  {
    AllSatisfied(cs, s.parts);
    LinkKeepsSatisfied(c, EnforceAll(cs, s.parts));
  }

  lemma {:induction false} StampedAlready(program: seq<Item>, room: string)
    requires forall i :: i in program && i.room == room ==> i.source == UserRequirement
    ensures Stamp(program, room) == program
  {
  }

  lemma {:induction false} OthersOfAbsent(program: seq<Item>, room: string)
    requires !Present(program, room)
    ensures Others(program, room) == program
  {
    if program != [] {
      assert program[0] in program && program == [program[0]] + program[1..];
      OthersOfAbsent(program[1..], room);
    }
  }

  lemma {:induction false} SatisfiedIsFixed(c: Required, p: Parts)
    requires Satisfied(c, p)
    ensures Enforce(c, p) == p
  {
    if c.known && c.count > 0 { StampedAlready(p.program, c.room); } else { OthersOfAbsent(p.program, c.room); }
  }

  lemma {:induction false} AllFixed(cs: seq<Required>, p: Parts)
    requires forall c :: c in cs ==> Satisfied(c, p)
    ensures EnforceAll(cs, p) == p
  {
    if cs != [] {
      AllFixed(DropLast(cs), p);
      SatisfiedIsFixed(Last(cs), p);
    }
  }

  lemma LinkTwice(p: Parts)
    ensures Link(Link(p)) == Link(p)
  {
    var link := Relation(true, "safe_room", "bedroom", UserRequirement);
    if Link(p) != p {
      assert link in Link(p).relations && {link.a, link.b} == {"safe_room", "bedroom"};
    }
  }

  /** Merging twice is merging once. */
  lemma MergeIsIdempotent(s: Spec, cs: seq<Required>)
    requires DistinctRooms(cs)
    ensures Merged(Merged(s, cs), cs) == Merged(s, cs)
  {
    forall c | c in cs ensures Satisfied(c, Merged(s, cs).parts) { MergeEnforcesRequirements(s, cs, c); }
    AllFixed(cs, Merged(s, cs).parts);
    LinkTwice(EnforceAll(cs, s.parts));
  }

  /** The items of the types no requirement is about, in their order. */
  function Untouched(program: seq<Item>, rooms: set<string>): seq<Item> {
    if program == [] then []
    else (if program[0].room in rooms then [] else [program[0]]) + Untouched(program[1..], rooms)
  }

  function RoomsOf(cs: seq<Required>): set<string> {
    set c | c in cs :: c.room
  }

  lemma {:induction false} UntouchedConcat(a: seq<Item>, b: seq<Item>, rooms: set<string>)
    ensures Untouched(a + b, rooms) == Untouched(a, rooms) + Untouched(b, rooms)
  {
    if a == [] {
      assert a + b == b;
    } else {
      assert (a + b)[1..] == a[1..] + b;
      UntouchedConcat(a[1..], b, rooms);
    }
  }

  lemma {:induction false} OthersUntouched(program: seq<Item>, room: string, rooms: set<string>)
    requires room in rooms
    ensures Untouched(Others(program, room), rooms) == Untouched(program, rooms)
    ensures Untouched(Stamp(program, room), rooms) == Untouched(program, rooms)
  {
    if program != [] {
      OthersUntouched(program[1..], room, rooms);
      var first := if program[0].room == room then [] else [program[0]];
      UntouchedConcat(first, Others(program[1..], room), rooms);
      assert first != [] ==> first[1..] == [];
    }
  }

  lemma EnforceUntouched(c: Required, p: Parts, rooms: set<string>)
    requires c.room in rooms
    ensures Untouched(Enforce(c, p).program, rooms) == Untouched(p.program, rooms)
  {
    OthersUntouched(p.program, c.room, rooms);
    UntouchedConcat(Others(p.program, c.room), [NewItem(c.room, c.count)], rooms);
    assert [NewItem(c.room, c.count)][1..] == [];
  }

  lemma {:induction false} AllUntouched(cs: seq<Required>, p: Parts, rooms: set<string>)
    requires forall c :: c in cs ==> c.room in rooms
    ensures Untouched(EnforceAll(cs, p).program, rooms) == Untouched(p.program, rooms)
  {
    if cs != [] {
      AllUntouched(DropLast(cs), p, rooms);
      EnforceUntouched(Last(cs), EnforceAll(DropLast(cs), p), rooms);
    }
  }

  /** The model's items of every other type survive, each as it was, as often as it was there and in the same order. */
  lemma MergeKeepsOtherItems(s: Spec, cs: seq<Required>)
    ensures Untouched(Merged(s, cs).parts.program, RoomsOf(cs)) == Untouched(s.parts.program, RoomsOf(cs))
  {
    AllUntouched(cs, s.parts, RoomsOf(cs));
  }

  /** Cross references: zones, relationships and the entry name only rooms of the program. */
  ghost predicate Refers(p: Parts) {
    && (forall z, x :: z in p.zones && x in z.rooms ==> Present(p.program, x))
    && (forall r :: r in p.relations ==> Present(p.program, r.a) && Present(p.program, r.b))
  }

  lemma {:induction false} EnforceKeepsReferences(c: Required, p: Parts)
    requires Refers(p)
    ensures Refers(Enforce(c, p))
  {
    var r := Enforce(c, p);
    EnforceSatisfies(c, p);
    forall x | x != c.room && Present(p.program, x) ensures Present(r.program, x) {
      PresenceElsewhere(c, p, x);
      var i :| i in p.program && i.room == x;
      assert i in r.program;
    }
    FiledRooms(p.zones, c.room);
    forall z, x | z in r.zones && x in z.rooms ensures Present(r.program, x) {
      if c.known && c.count > 0 {
        assert x == c.room || exists y :: y in p.zones && x in y.rooms;
      } else {
        var i :| 0 <= i < |p.zones| && StripZones(p.zones, c.room)[i] == z;
        assert p.zones[i] in p.zones && x != c.room;
      }
    }
  }

  lemma {:induction false} AllKeepReferences(cs: seq<Required>, p: Parts)
    requires Refers(p)
    ensures Refers(EnforceAll(cs, p))
  {
    if cs != [] {
      AllKeepReferences(DropLast(cs), p);
      EnforceKeepsReferences(Last(cs), EnforceAll(DropLast(cs), p));
    }
  }

  lemma {:induction false} PresentStays(cs: seq<Required>, p: Parts, room: string)
    requires Present(p.program, room) && forall c :: c in cs && c.room == room ==> c.known && c.count > 0
    ensures Present(EnforceAll(cs, p).program, room)
  {
    if cs != [] {
      assert Last(cs) in cs;
      PresentStays(DropLast(cs), p, room);
      var before := EnforceAll(DropLast(cs), p);
      if Last(cs).room == room {
        EnforceSatisfies(Last(cs), before);
      } else {
        PresenceElsewhere(Last(cs), before, room);
        var i :| i in before.program && i.room == room;
        assert i in EnforceAll(cs, p).program;
      }
    }
  }

  ghost predicate ValidSpec(s: Spec) {
    Refers(s.parts) && (s.entry.Some? ==> Present(s.parts.program, s.entry.value))
  }

  /** A valid specification stays valid, provided no requirement strips its entry room. */
  lemma MergeKeepsSpecValid(s: Spec, cs: seq<Required>)
    requires ValidSpec(s)
    requires s.entry.Some? ==> forall c :: c in cs && c.room == s.entry.value ==> c.known && c.count > 0
    ensures ValidSpec(Merged(s, cs))
  {
    AllKeepReferences(cs, s.parts);
    if s.entry.Some? { PresentStays(cs, s.parts, s.entry.value); }
  }

  /** The proviso is needed: stripping the entry room leaves a specification its own validator rejects. */
  lemma StrippedEntryIsInvalid(s: Spec, cs: seq<Required>, c: Required)
    requires s.entry.Some? && DistinctRooms(cs) && c in cs && c.room == s.entry.value && !(c.known && c.count > 0)
    ensures !ValidSpec(Merged(s, cs))
  {
    MergeEnforcesRequirements(s, cs, c);
  }

  // --- the area budget ---------------------------------------------------------------------------

  /** A required room of known size that the model has no word for. */
  predicate Reserves(c: Required) {
    c.known && c.count > 0 && c.room !in MODEL_VOCABULARY && TargetArea(c.room).Some?
  }

  function ReservedFor(c: Required): real {
    if Reserves(c) then TargetArea(c.room).value * c.count as real else 0.0
  }

  function Reserved(cs: seq<Required>): real {
    if cs == [] then 0.0 else Reserved(DropLast(cs)) + ReservedFor(Last(cs))
  }

  datatype AreaBudget = AreaBudget(total: real, reserved: real, available: real, rooms: seq<string>)

  /** `None`: the authoritative rooms alone leave nothing to ask the model for. */
  method ComputeAreaBudget(total: real, cs: seq<Required>) returns (b: Option<AreaBudget>)
    ensures b.None? <==> total - Reserved(cs) <= 0.0
    ensures b.Some? ==>
        b.value.total == total && b.value.reserved == Reserved(cs) && b.value.available == total - Reserved(cs) > 0.0
    ensures b.Some? ==> forall room :: room in b.value.rooms <==> exists c :: c in cs && c.room == room && Reserves(c)
  {
    hide MODEL_VOCABULARY, TargetArea;
    var reserved := 0.0;
    var rooms: seq<string> := [];
    for i := 0 to |cs|
      invariant reserved == Reserved(cs[..i])
      invariant forall room :: room in rooms <==> exists c :: c in cs[..i] && c.room == room && Reserves(c)
    {
      assert DropLast(cs[..i + 1]) == cs[..i];
      var c := cs[i];
      assert cs[..i + 1] == cs[..i] + [c];
      if !c.known || c.count == 0 || c.room in MODEL_VOCABULARY || TargetArea(c.room).None? { continue; }
      var area := TargetArea(c.room).value * c.count as real;
      assert area == ReservedFor(c);
      reserved := reserved + area;
      rooms := rooms + [c.room];
    }
    assert cs[..|cs|] == cs;
    if total - reserved <= 0.0 { return None; }
    b := Some(AreaBudget(total, reserved, total - reserved, rooms));
  }

  function ItemArea(i: Item): real {
    if i.area.Some? then i.area.value * i.count as real else 0.0
  }

  function ProgramArea(program: seq<Item>): real {
    if program == [] then 0.0 else ItemArea(program[0]) + ProgramArea(program[1..])
  }

  ghost predicate AreasPositive(program: seq<Item>) {
    forall i :: i in program && i.area.Some? ==> i.area.value > 0.0
  }

  /** The model kept to its part: what it knows it counted as required, what it does not know it left out. */
  ghost predicate ModelAgrees(c: Required, program: seq<Item>) {
    c.known && c.count > 0 ==>
      if c.room in MODEL_VOCABULARY then Present(program, c.room) && Total(program, c.room) == c.count
      else !Present(program, c.room)
  }

  lemma {:induction false} OthersWeighLess(program: seq<Item>, room: string)
    requires AreasPositive(program)
    ensures ProgramArea(Others(program, room)) <= ProgramArea(program)
  {
    if program != [] {
      var first, rest := program[0], program[1..];
      assert first in program;
      assert AreasPositive(rest) by { assert forall i :: i in rest ==> i in program; }
      OthersWeighLess(rest, room);
      ItemAreaNonnegative(first);
      AreaOfCons(first, Others(rest, room));
      assert [] + Others(rest, room) == Others(rest, room);
    }
  }

  lemma ItemAreaNonnegative(item: Item)
    requires item.area.Some? ==> item.area.value > 0.0
    ensures ItemArea(item) >= 0.0
  {
  }

  lemma AreaOfCons(item: Item, rest: seq<Item>)
    ensures ProgramArea([item] + rest) == ItemArea(item) + ProgramArea(rest)
  {
    assert ([item] + rest)[1..] == rest;
  }

  lemma {:induction false} AreaOfConcat(a: seq<Item>, item: Item)
    ensures ProgramArea(a + [item]) == ProgramArea(a) + ItemArea(item)
  {
    if a == [] {
      assert a + [item] == [item] && [item][1..] == [];
    } else {
      assert (a + [item])[1..] == a[1..] + [item];
      AreaOfConcat(a[1..], item);
    }
  }

  lemma {:induction false} AreaOfStamp(program: seq<Item>, room: string)
    ensures ProgramArea(Stamp(program, room)) == ProgramArea(program)
  {
    if program != [] {
      AreaOfStamp(program[1..], room);
      assert Stamp(program, room)[1..] == Stamp(program[1..], room);
    }
  }

  lemma {:induction false} EnforceAddsReservedAtMost(c: Required, p: Parts)
    requires AreasPositive(p.program) && ModelAgrees(c, p.program)
    ensures ProgramArea(Enforce(c, p).program) <= ProgramArea(p.program) + ReservedFor(c)
    ensures AreasPositive(Enforce(c, p).program)
  {
    if !(c.known && c.count > 0) {
      OthersWeighLess(p.program, c.room);
    } else if c.room in MODEL_VOCABULARY {
      AreaOfStamp(p.program, c.room);
      StampKeepsAreas(p.program, c.room);
    } else {
      OthersWeighLess(p.program, c.room);
      NewItemIsReserved(c);
      ReplacementWeighs(p.program, NewItem(c.room, c.count));
    }
  }

  lemma NewItemIsReserved(c: Required)
    requires c.known && c.count > 0 && c.room !in MODEL_VOCABULARY
    ensures var item := NewItem(c.room, c.count);
            item.room == c.room && (item.area.Some? ==> item.area.value > 0.0) && ItemArea(item) == ReservedFor(c)
  {
  }

  lemma {:induction false} StampKeepsAreas(program: seq<Item>, room: string)
    requires AreasPositive(program)
    ensures AreasPositive(Stamp(program, room))
  {
    forall i | i in Stamp(program, room) && i.area.Some? ensures i.area.value > 0.0 {
      var k :| 0 <= k < |program| && Stamp(program, room)[k] == i;
      assert program[k] in program;
    }
  }

  lemma {:induction false} ReplacementWeighs(program: seq<Item>, item: Item)
    requires AreasPositive(program) && (item.area.Some? ==> item.area.value > 0.0)
    ensures AreasPositive(Others(program, item.room) + [item])
    ensures ProgramArea(Others(program, item.room) + [item]) == ProgramArea(Others(program, item.room)) + ItemArea(item)
  {
    AreaOfConcat(Others(program, item.room), item);
  }

  lemma {:induction false} MergeAddsReservedAtMost(cs: seq<Required>, p: Parts)
    requires DistinctRooms(cs) && AreasPositive(p.program) && forall c :: c in cs ==> ModelAgrees(c, p.program)
    ensures ProgramArea(EnforceAll(cs, p).program) <= ProgramArea(p.program) + Reserved(cs)
    ensures AreasPositive(EnforceAll(cs, p).program)
  {
    if cs != [] {
      var rest, last := DropLast(cs), Last(cs);
      MergeAddsReservedAtMost(rest, p);
      var before := EnforceAll(rest, p);
      assert last in cs;
      UntouchedSoFar(rest, p, last.room);
      EnforceAddsReservedAtMost(last, before);
    }
  }

  lemma {:induction false} UntouchedSoFar(cs: seq<Required>, p: Parts, room: string)
    requires forall c :: c in cs ==> c.room != room
    ensures var q := EnforceAll(cs, p).program;
            Total(q, room) == Total(p.program, room) && (Present(q, room) <==> Present(p.program, room))
  {
    if cs != [] {
      assert Last(cs) in cs;
      UntouchedSoFar(DropLast(cs), p, room);
      PresenceElsewhere(Last(cs), EnforceAll(DropLast(cs), p), room);
    }
  }

  /** Area is conserved across the two modules: a model program that fits what the budget left it, uses only its own
      vocabulary and agrees on the required counts still fits the total area after the merge. */
  lemma MergedProgramFitsTotal(s: Spec, cs: seq<Required>, total: real)
    requires DistinctRooms(cs) && AreasPositive(s.parts.program)
    requires forall i :: i in s.parts.program ==> i.room in MODEL_VOCABULARY
    requires forall c :: c in cs && c.known && c.count > 0 && c.room in MODEL_VOCABULARY ==>
               Present(s.parts.program, c.room) && Total(s.parts.program, c.room) == c.count
    requires ProgramArea(s.parts.program) <= total - Reserved(cs)
    ensures ProgramArea(Merged(s, cs).parts.program) <= total
  {
    MergeAddsReservedAtMost(cs, s.parts);
  }
}
