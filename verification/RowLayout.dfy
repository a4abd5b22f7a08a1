/** The parametric design generator: every floor is a square cut into one row of rooms. Arithmetic is exact. */
module RowLayout {
  import opened Prelude

  datatype Room = Room(kind: string, floor: nat, area: real, x: real, y: real, width: real, depth: real)
  datatype Entry = Entry(kind: string, area: real)

  /** A parsed planning field: its value may be missing, and its source may be unknown. */
  datatype Tagged<T> = Tagged(value: Option<T>, unknown: bool)
  datatype Project = Project(builtArea: real, floors: Option<int>, bedrooms: Option<Tagged<int>>,
      safeRoom: Option<Tagged<bool>>)

  datatype Note = BedroomsUnknown | SafeRoomUnknown
  /** `CannotCompute` is a division by zero or the root of a negative number. */
  datatype Outcome = NotParsed | CannotCompute | FootprintTooSmall | Design(rooms: seq<Room>, notes: seq<Note>)

  const KITCHEN := 12.0
  const BATHROOM := 5.0
  const SAFE_ROOM := 9.0

  // --- one row -----------------------------------------------------------------------------------

  function Area(entries: seq<Entry>): real {
    if entries == [] then 0.0 else Area(DropLast(entries)) + Last(entries).area
  }

  /** The rooms of `entries` side by side, left to right. */
  function Row(floor: nat, depth: real, entries: seq<Entry>): (r: seq<Room>)
    requires depth > 0.0
    ensures |r| == |entries|
    ensures forall i :: 0 <= i < |r| ==> r[i].floor == floor && r[i].kind == entries[i].kind
  {
    if entries == [] then []
    else
      var e := Last(entries);
      Row(floor, depth, DropLast(entries))
      + [Room(e.kind, floor, e.area, Area(DropLast(entries)) / depth, 0.0, e.area / depth, depth)]
  }

  method LayOut(floor: nat, depth: real, entries: seq<Entry>) returns (rooms: seq<Room>)
    requires depth > 0.0
    ensures rooms == Row(floor, depth, entries)
  {
    rooms := [];
    var x := 0.0;
    for i := 0 to |entries|
      invariant x == Area(entries[..i]) / depth
      invariant rooms == Row(floor, depth, entries[..i])
    {
      assert DropLast(entries[..i + 1]) == entries[..i];
      var width := entries[i].area / depth;
      rooms := rooms + [Room(entries[i].kind, floor, entries[i].area, x, 0.0, width, depth)];
      Shares(Area(entries[..i]), entries[i].area, depth);
      x := x + width;
    }
    assert entries[..|entries|] == entries;
  }

  lemma Shares(a: real, b: real, depth: real)
    requires depth > 0.0
    ensures a / depth + b / depth == (a + b) / depth
  {
  }

  /** The room reaches over the whole depth of its floor and has the area it says. */
  ghost predicate Spans(room: Room, depth: real) {
    room.y == 0.0 && room.depth == depth && room.width >= 0.0 && room.width * room.depth == room.area
  }

  ghost predicate Abuts(row: seq<Room>, i: nat)
    requires 1 <= i < |row|
  {
    row[i].x == row[i - 1].x + row[i - 1].width
  }

  /** The rooms fill the square [0, depth] x [0, depth] from left to right without gap or overlap. */
  ghost predicate Tiles(row: seq<Room>, depth: real) {
    && row != [] && row[0].x == 0.0
    && (forall i :: 0 <= i < |row| ==> Spans(row[i], depth))
    && (forall i :: 1 <= i < |row| ==> Abuts(row, i))
    && Last(row).x + Last(row).width == depth
  }

  function RoomArea(rooms: seq<Room>): real {
    if rooms == [] then 0.0 else RoomArea(DropLast(rooms)) + Last(rooms).area
  }

  lemma {:induction false} RowSteps(floor: nat, depth: real, entries: seq<Entry>, i: nat)
    requires depth > 0.0 && i < |entries|
    ensures var room := Row(floor, depth, entries)[i];
            && room.x == Area(entries[..i]) / depth && room.area == entries[i].area
            && room.width == entries[i].area / depth && room.y == 0.0 && room.depth == depth
            && room.x + room.width == Area(entries[..i + 1]) / depth
  {
    if i == |entries| - 1 {
      assert entries[..i] == DropLast(entries) && entries[..i + 1] == entries;
      Shares(Area(DropLast(entries)), Last(entries).area, depth);
    } else {
      RowSteps(floor, depth, DropLast(entries), i);
      assert DropLast(entries)[..i] == entries[..i] && DropLast(entries)[..i + 1] == entries[..i + 1];
    }
  }

  lemma Quotients(area: real, depth: real)
    requires depth > 0.0
    ensures area / depth * depth == area && (area >= 0.0 ==> area / depth >= 0.0)
  {
  }

  /** A row whose areas add up to the floor area fills the floor exactly. */
  lemma {:induction false} RowTiles(floor: nat, depth: real, entries: seq<Entry>)
    requires depth > 0.0 && entries != [] && Area(entries) == depth * depth
    requires forall i :: 0 <= i < |entries| ==> entries[i].area >= 0.0
    ensures Tiles(Row(floor, depth, entries), depth)
    ensures RoomArea(Row(floor, depth, entries)) == depth * depth
  {
    hide Row, Area, Spans, Abuts, RoomArea;
    var row := Row(floor, depth, entries);
    forall i | 0 <= i < |row|
      ensures Spans(row[i], depth)
      ensures i >= 1 ==> Abuts(row, i)
    {
      RoomFits(floor, depth, entries, i);
    }
    RowSpans(floor, depth, entries);
    RowArea(floor, depth, entries);
  }

  lemma {:induction false} RoomFits(floor: nat, depth: real, entries: seq<Entry>, i: nat)
    requires depth > 0.0 && i < |entries| && entries[i].area >= 0.0
    ensures var row := Row(floor, depth, entries);
            && Spans(row[i], depth)
            && (i >= 1 ==> Abuts(row, i))
  {
    hide Row, Area;
    RowSteps(floor, depth, entries, i);
    Quotients(entries[i].area, depth);
    if i >= 1 { RowSteps(floor, depth, entries, i - 1); }
  }

  lemma {:induction false} RowSpans(floor: nat, depth: real, entries: seq<Entry>)
    requires depth > 0.0 && entries != [] && Area(entries) == depth * depth
    ensures var row := Row(floor, depth, entries);
            row[0].x == 0.0 && Last(row).x + Last(row).width == depth
  {
    RowSteps(floor, depth, entries, 0);
    assert entries[..0] == [];
    RowSteps(floor, depth, entries, |entries| - 1);
    assert entries[..|entries|] == entries;
    FullWidth(depth);
  }

  lemma FullWidth(depth: real)
    requires depth > 0.0
    ensures depth * depth / depth == depth && 0.0 / depth == 0.0
  {
  }

  lemma {:induction false} RowArea(floor: nat, depth: real, entries: seq<Entry>)
    requires depth > 0.0
    ensures RoomArea(Row(floor, depth, entries)) == Area(entries)
  {
    if entries != [] {
      RowArea(floor, depth, DropLast(entries));
      assert DropLast(Row(floor, depth, entries)) == Row(floor, depth, DropLast(entries));
    }
  }

  // --- the whole house ---------------------------------------------------------------------------

  /** The number of bedrooms as it was parsed; nothing keeps it from being negative. */
  function Requested(p: Project): int {
    if p.bedrooms.Some? && !p.bedrooms.value.unknown && p.bedrooms.value.value.Some? then p.bedrooms.value.value.value
    else 0
  }

  function Wanted(p: Project): nat {
    if Requested(p) > 0 then Requested(p) else 0
  }

  predicate SafeRoomRequested(p: Project) {
    p.safeRoom.Some? && !p.safeRoom.value.unknown && p.safeRoom.value.value == Some(true)
  }

  function FixedArea(p: Project): real {
    KITCHEN + BATHROOM + if SafeRoomRequested(p) then SAFE_ROOM else 0.0
  }

  /** None when `n` is negative. */
  function Repeat(entry: Entry, n: int): (r: seq<Entry>)
    ensures |r| == (if n > 0 then n else 0) && forall i :: 0 <= i < |r| ==> r[i] == entry
    decreases if n > 0 then n else 0
  {
    if n <= 0 then [] else Repeat(entry, n - 1) + [entry]
  }

  function GroundBedrooms(p: Project): int {
    if p.floors == Some(1) then Requested(p) else 0
  }

  /** There is a floor, and somebody to share the ground floor with: one storey and minus one bedroom make nobody. */
  predicate Computable(p: Project) {
    p.floors.Some? && p.floors.value >= 1 && GroundBedrooms(p) != -1
  }

  function FixedEntries(p: Project): seq<Entry> {
    [Entry("kitchen", KITCHEN), Entry("bathroom", BATHROOM)]
    + if SafeRoomRequested(p) then [Entry("safe_room", SAFE_ROOM)] else []
  }

  function GroundEntries(p: Project, floorArea: real): seq<Entry>
    requires Computable(p)
  {
    var share := (floorArea - FixedArea(p)) / (1 + GroundBedrooms(p)) as real;
    FixedEntries(p) + [Entry("living_room", share)] + Repeat(Entry("bedroom", share), GroundBedrooms(p))
  }

  /** Bedrooms on upper floor number `index` of `upper`. */
  function Dealt(bedrooms: nat, upper: nat, index: nat): nat
    requires upper > 0
  {
    bedrooms / upper + if index < bedrooms % upper then 1 else 0
  }

  function UpperEntries(floorArea: real, count: nat): seq<Entry> {
    if count == 0 then [] else Repeat(Entry("bedroom", floorArea / count as real), count)
  }

  /** Rooms a floor of the house is to hold. */
  function FloorEntries(p: Project, floorArea: real, floor: nat): seq<Entry>
    requires Computable(p) && 1 <= floor <= p.floors.value
  {
    if floor == 1 then GroundEntries(p, floorArea)
    else UpperEntries(floorArea, Dealt(Wanted(p), p.floors.value - 1, floor - 2))
  }

  function FloorRows(p: Project, depth: real, floorArea: real, n: nat): (r: seq<seq<Room>>)
    requires depth > 0.0 && Computable(p) && n <= p.floors.value
    ensures |r| == n
  {
    if n == 0 then []
    else FloorRows(p, depth, floorArea, n - 1) + [Row(n, depth, FloorEntries(p, floorArea, n))]
  }

  lemma {:induction false} RowOfFloor(p: Project, depth: real, floorArea: real, n: nat, i: nat)
    requires depth > 0.0 && Computable(p) && i < n <= p.floors.value
    ensures FloorRows(p, depth, floorArea, n)[i] == Row(i + 1, depth, FloorEntries(p, floorArea, i + 1))
  {
    hide Row, FloorEntries;
    if i < n - 1 { RowOfFloor(p, depth, floorArea, n - 1, i); }
  }

  function Joined(rows: seq<seq<Room>>): seq<Room> {
    if rows == [] then [] else Joined(DropLast(rows)) + Last(rows)
  }

  /** All rooms, floor by floor from the ground up. */
  function House(p: Project, depth: real, floorArea: real): seq<Room>
    requires depth > 0.0 && Computable(p)
  {
    Joined(FloorRows(p, depth, floorArea, p.floors.value))
  }

  function Notes(p: Project): seq<Note> {
    (if p.bedrooms.Some? && !p.bedrooms.value.unknown then [] else [BedroomsUnknown])
    + (if p.safeRoom.Some? && !p.safeRoom.value.unknown then [] else [SafeRoomUnknown])
  }

  /** `depth` is the square root of the floor area, where there is one. The built area of a project is positive. */
  method GenerateDesign(p: Project, depth: real) returns (d: Outcome)
    requires p.builtArea > 0.0
    requires p.floors.Some? && p.floors.value >= 1 ==>
        depth > 0.0 && depth * depth == p.builtArea / p.floors.value as real
    ensures d.NotParsed? <==> p.floors.None?
    ensures d.FootprintTooSmall?
        <==> p.floors.Some? && p.floors.value >= 1 && FixedArea(p) > p.builtArea / p.floors.value as real
    ensures d.CannotCompute? <==>
            p.floors.Some?
                && (p.floors.value <= 0
                      || (GroundBedrooms(p) == -1 && FixedArea(p) <= p.builtArea / p.floors.value as real))
    ensures d.Design? ==> d.rooms == House(p, depth, p.builtArea / p.floors.value as real) && d.notes == Notes(p)
  {
    hide Row, GroundEntries, UpperEntries, Joined, FloorRows;
    if p.floors.None? { return NotParsed; }
    var floors := p.floors.value;
    if floors == 0 { return CannotCompute; }
    var floorArea := p.builtArea / floors as real;
    ShareSign(p.builtArea, floors);
    if floorArea < 0.0 { return CannotCompute; }
    var notes := [];
    var bedrooms := 0;
    if p.bedrooms.Some? && !p.bedrooms.value.unknown {
      bedrooms := if p.bedrooms.value.value.Some? then p.bedrooms.value.value.value else 0;
    } else {
      notes := notes + [BedroomsUnknown];
    }
    if p.safeRoom.None? || p.safeRoom.value.unknown { notes := notes + [SafeRoomUnknown]; }
    if FixedArea(p) > floorArea { return FootprintTooSmall; }
    if 1 + GroundBedrooms(p) == 0 { return CannotCompute; }
    var rooms := LayOut(1, depth, GroundEntries(p, floorArea));
    GroundFirst(p, depth, floorArea);
    if floors > 1 && bedrooms > 0 {
      var upper := floors - 1;
      var baseCount, remainder := bedrooms / upper, bedrooms % upper;
      for index := 0 to upper
        invariant rooms == Joined(FloorRows(p, depth, floorArea, index + 1))
      {
        var count := baseCount + if index < remainder then 1 else 0;
        NextFloor(p, depth, floorArea, index + 2);
        if count == 0 { continue; }
        var row := LayOut(index + 2, depth, UpperEntries(floorArea, count));
        rooms := rooms + row;
      }
    } else {
      NoUpperRooms(p, depth, floorArea);
    }
    d := Design(rooms, notes);
  }

  lemma ShareSign(total: real, n: int)
    requires total > 0.0 && n != 0
    ensures total / n as real < 0.0 <==> n < 0
  {
    if n < 0 { assert total / n as real * n as real == total; }
  }

  lemma JoinOne(rows: seq<seq<Room>>, row: seq<Room>)
    ensures Joined(rows + [row]) == Joined(rows) + row
  {
    assert DropLast(rows + [row]) == rows;
  }

  lemma GroundFirst(p: Project, depth: real, floorArea: real)
    requires depth > 0.0 && Computable(p)
    ensures Joined(FloorRows(p, depth, floorArea, 1)) == Row(1, depth, GroundEntries(p, floorArea))
  {
    hide Row, GroundEntries;
    var rows := FloorRows(p, depth, floorArea, 1);
    assert rows == [Row(1, depth, GroundEntries(p, floorArea))];
    JoinedFirst(rows);
  }

  lemma NoRoom(n: nat, depth: real, floorArea: real)
    requires depth > 0.0
    ensures Row(n, depth, UpperEntries(floorArea, 0)) == []
  {
    hide Row;
    assert |Row(n, depth, [])| == 0;
  }

  lemma NextFloor(p: Project, depth: real, floorArea: real, n: nat)
    requires depth > 0.0 && Computable(p) && 2 <= n <= p.floors.value
    ensures var count := Dealt(Wanted(p), p.floors.value - 1, n - 2);
            && Joined(FloorRows(p, depth, floorArea, n))
            == Joined(FloorRows(p, depth, floorArea, n - 1)) + Row(n, depth, UpperEntries(floorArea, count))
            && (count == 0 ==> Row(n, depth, UpperEntries(floorArea, count)) == [])
  {
    hide Row, Dealt, GroundEntries, UpperEntries, Joined, Wanted;
    NoRoom(n, depth, floorArea);
    JoinOne(FloorRows(p, depth, floorArea, n - 1), Row(n, depth, FloorEntries(p, floorArea, n)));
  }

  lemma {:induction false} JoinedFirst(rows: seq<seq<Room>>)
    requires rows != [] && forall i :: 1 <= i < |rows| ==> rows[i] == []
    ensures Joined(rows) == rows[0]
  {
    if |rows| == 1 {
      assert Joined(DropLast(rows)) == [];
    } else {
      JoinedFirst(DropLast(rows));
    }
  }

  lemma NoUpperRooms(p: Project, depth: real, floorArea: real)
    requires depth > 0.0 && Computable(p) && (p.floors.value == 1 || Requested(p) <= 0)
    ensures House(p, depth, floorArea) == Row(1, depth, GroundEntries(p, floorArea))
  {
    hide Row, GroundEntries;
    var rows := FloorRows(p, depth, floorArea, p.floors.value);
    forall i | 1 <= i < |rows| ensures rows[i] == [] {
      RowOfFloor(p, depth, floorArea, p.floors.value, i);
      NothingDealt(p.floors.value - 1, i - 1);
      assert |Row(i + 1, depth, [])| == 0;
    }
    RowOfFloor(p, depth, floorArea, p.floors.value, 0);
    JoinedFirst(rows);
  }

  lemma NothingDealt(upper: nat, index: nat)
    requires upper > 0
    ensures Dealt(0, upper, index) == 0
  {
  }

  // --- what a design looks like ------------------------------------------------------------------

  function OnFloor(rooms: seq<Room>, floor: nat): seq<Room> {
    if rooms == [] then []
    else OnFloor(DropLast(rooms), floor) + if Last(rooms).floor == floor then [Last(rooms)] else []
  }

  function Bedrooms(rooms: seq<Room>): nat {
    if rooms == [] then 0 else Bedrooms(DropLast(rooms)) + if Last(rooms).kind == "bedroom" then 1 else 0
  }

  lemma {:induction false} OnFloorConcat(a: seq<Room>, b: seq<Room>, floor: nat)
    ensures OnFloor(a + b, floor) == OnFloor(a, floor) + OnFloor(b, floor)
  {
    if b == [] {
      assert a + b == a;
    } else {
      assert DropLast(a + b) == a + DropLast(b);
      OnFloorConcat(a, DropLast(b), floor);
    }
  }

  lemma {:induction false} BedroomsConcat(a: seq<Room>, b: seq<Room>)
    ensures Bedrooms(a + b) == Bedrooms(a) + Bedrooms(b)
  {
    if b == [] {
      assert a + b == a;
    } else {
      assert DropLast(a + b) == a + DropLast(b);
      BedroomsConcat(a, DropLast(b));
    }
  }

  ghost predicate AllOn(rooms: seq<Room>, floor: nat) {
    forall i :: 0 <= i < |rooms| ==> rooms[i].floor == floor
  }

  lemma {:induction false} OneFloor(rooms: seq<Room>, floor: nat, other: nat)
    requires AllOn(rooms, floor)
    ensures OnFloor(rooms, other) == if other == floor then rooms else []
  {
    if rooms != [] {
      OneFloor(DropLast(rooms), floor, other);
      assert rooms == DropLast(rooms) + [Last(rooms)];
    }
  }

  lemma {:induction false} AllBedrooms(rooms: seq<Room>)
    requires forall i :: 0 <= i < |rooms| ==> rooms[i].kind == "bedroom"
    ensures Bedrooms(rooms) == |rooms|
  {
    if rooms != [] { AllBedrooms(DropLast(rooms)); }
  }

  lemma {:induction false} RepeatArea(entry: Entry, n: nat)
    ensures Area(Repeat(entry, n)) == entry.area * n as real
  {
    hide Area;
    if n > 0 {
      RepeatArea(entry, n - 1);
      assert Repeat(entry, n) == Repeat(entry, n - 1) + [entry];
      AreaNext(Repeat(entry, n - 1), entry);
      Distribute(entry.area, n - 1);
    } else {
      NoArea(entry);
    }
  }

  lemma AreaNext(entries: seq<Entry>, entry: Entry)
    ensures Area(entries + [entry]) == Area(entries) + entry.area
  {
    assert DropLast(entries + [entry]) == entries;
  }

  lemma NoArea(entry: Entry)
    ensures Area(Repeat(entry, 0)) == 0.0 == entry.area * 0.0
  {
  }

  lemma {:induction false} AreaConcat(a: seq<Entry>, b: seq<Entry>)
    ensures Area(a + b) == Area(a) + Area(b)
  {
    if b == [] {
      assert a + b == a;
    } else {
      assert DropLast(a + b) == a + DropLast(b);
      AreaConcat(a, DropLast(b));
    }
  }

  /** The divided shares of the upper floors deal out every bedroom. */
  function DealtInAll(bedrooms: nat, upper: nat, n: nat): nat
    requires upper > 0
  {
    if n == 0 then 0 else DealtInAll(bedrooms, upper, n - 1) + Dealt(bedrooms, upper, n - 1)
  }

  lemma {:induction false} DealtSoFar(bedrooms: nat, upper: nat, n: nat)
    requires upper > 0
    ensures DealtInAll(bedrooms, upper, n) ==
        n * (bedrooms / upper) + if n < bedrooms % upper then n else bedrooms % upper
  {
    if n > 0 { DealtSoFar(bedrooms, upper, n - 1); }
  }

  lemma EveryBedroomIsDealt(bedrooms: nat, upper: nat)
    requires upper > 0
    ensures DealtInAll(bedrooms, upper, upper) == bedrooms
  {
    DealtSoFar(bedrooms, upper, upper);
  }

  lemma {:induction false} JoinedByFloor(rows: seq<seq<Room>>, floor: nat)
    requires forall i :: 0 <= i < |rows| ==> AllOn(rows[i], i + 1)
    ensures OnFloor(Joined(rows), floor) == if 1 <= floor <= |rows| then rows[floor - 1] else []
  {
    hide AllOn;
    if rows != [] {
      JoinedByFloor(DropLast(rows), floor);
      OnFloorConcat(Joined(DropLast(rows)), Last(rows), floor);
      OneFloor(Last(rows), |rows|, floor);
    }
  }

  lemma HouseByFloor(p: Project, depth: real, floorArea: real, floor: nat)
    requires depth > 0.0 && Computable(p) && 1 <= floor <= p.floors.value
    ensures OnFloor(House(p, depth, floorArea), floor) == Row(floor, depth, FloorEntries(p, floorArea, floor))
  {
    hide Row, FloorEntries, FloorRows;
    var rows := FloorRows(p, depth, floorArea, p.floors.value);
    forall i | 0 <= i < |rows| ensures rows[i] == Row(i + 1, depth, FloorEntries(p, floorArea, i + 1)) {
      RowOfFloor(p, depth, floorArea, p.floors.value, i);
    }
    JoinedByFloor(rows, floor);
  }

  lemma ShareOut(total: real, n: nat)
    requires n > 0
    ensures total / n as real * n as real == total && (total >= 0.0 ==> total / n as real >= 0.0)
  {
  }

  lemma GroundFillsFloor(p: Project, floorArea: real)
    requires FixedArea(p) <= floorArea && Computable(p) && GroundBedrooms(p) >= 0
    ensures Area(GroundEntries(p, floorArea)) == floorArea
    ensures forall i :: 0 <= i < |GroundEntries(p, floorArea)| ==> GroundEntries(p, floorArea)[i].area >= 0.0
  {
    hide Area, FixedArea, Requested;
    var n: nat := GroundBedrooms(p);
    var share := (floorArea - FixedArea(p)) / (1 + n) as real;
    ShareOut(floorArea - FixedArea(p), 1 + n);
    FixedEntriesArea(p);
    SharedEntriesArea(FixedEntries(p), share, n);
    assert GroundEntries(p, floorArea) == FixedEntries(p) + [Entry("living_room", share)]
        + Repeat(Entry("bedroom", share), n);
  }

  lemma FixedEntriesArea(p: Project)
    ensures Area(FixedEntries(p)) == FixedArea(p)
  {
    var kitchen, bathroom := Entry("kitchen", KITCHEN), Entry("bathroom", BATHROOM);
    var safe := Entry("safe_room", SAFE_ROOM);
    SingleAreas(kitchen); SingleAreas(bathroom); SingleAreas(safe);
    AreaConcat([kitchen], [bathroom]);
    assert [kitchen] + [bathroom] == [kitchen, bathroom];
    AreaConcat([kitchen, bathroom], [safe]);
    assert [kitchen, bathroom] + [] == [kitchen, bathroom];
  }

  lemma SharedEntriesArea(fixedEntries: seq<Entry>, share: real, n: nat)
    ensures Area(fixedEntries + [Entry("living_room", share)] + Repeat(Entry("bedroom", share), n))
         == Area(fixedEntries) + share * (1 + n) as real
  {
    hide Area, Repeat;
    RepeatArea(Entry("bedroom", share), n);
    AreaConcat(fixedEntries + [Entry("living_room", share)], Repeat(Entry("bedroom", share), n));
    AreaConcat(fixedEntries, [Entry("living_room", share)]);
    SingleAreas(Entry("living_room", share));
    Distribute(share, n);
  }

  lemma SingleAreas(entry: Entry)
    ensures Area([entry]) == entry.area && Area([]) == 0.0
  {
    assert DropLast([entry]) == [];
  }

  lemma Distribute(share: real, n: nat)
    ensures share * (1 + n) as real == share + share * n as real
  {
  }

  /** A single storey with fewer than minus one bedrooms: the shares are negative, and there is a living room only. */
  lemma NegativeShare(p: Project, floorArea: real)
    requires FixedArea(p) <= floorArea && Computable(p) && GroundBedrooms(p) < 0
    ensures Area(GroundEntries(p, floorArea)) <= FixedArea(p)
    ensures FixedArea(p) < floorArea ==> Last(GroundEntries(p, floorArea)).area < 0.0
    ensures FixedArea(p) == floorArea ==> Area(GroundEntries(p, floorArea)) == floorArea
    ensures FixedArea(p) == floorArea ==> forall i :: 0 <= i < |GroundEntries(p, floorArea)| ==>
        GroundEntries(p, floorArea)[i].area >= 0.0
  {
    hide Area;
    var n := 1 + GroundBedrooms(p);
    var share := (floorArea - FixedArea(p)) / n as real;
    assert share * n as real == floorArea - FixedArea(p);
    NotPositive(share, n, floorArea - FixedArea(p));
    FixedEntriesArea(p);
    AreaConcat(FixedEntries(p), [Entry("living_room", share)]);
    SingleAreas(Entry("living_room", share));
    assert GroundEntries(p, floorArea) == FixedEntries(p) + [Entry("living_room", share)];
  }

  lemma NotPositive(share: real, n: int, total: real)
    requires n < 0 && share * n as real == total && total >= 0.0
    ensures share <= 0.0 && (total > 0.0 ==> share < 0.0) && (total == 0.0 ==> share == 0.0)
  {
  }

  lemma TiledAreNotNegative(row: seq<Room>, depth: real, i: nat)
    requires Tiles(row, depth) && depth > 0.0 && i < |row|
    ensures row[i].area >= 0.0
  {
    assert Spans(row[i], depth);
  }

  /** Every floor of a design that has rooms is filled exactly by one gap-free row, and its room areas add up to the
      floor area; only upper floors that were dealt no bedroom are empty. The ground floor is the exception exactly when
      a single storey was given a negative number of bedrooms and has area to share. */
  lemma EveryFloorIsTiled(p: Project, depth: real, floorArea: real, floor: nat)
    requires depth > 0.0 && depth * depth == floorArea
    requires Computable(p) && 1 <= floor <= p.floors.value && FixedArea(p) <= floorArea
    ensures var row := OnFloor(House(p, depth, floorArea), floor);
            if floor > 1 && Dealt(Wanted(p), p.floors.value - 1, floor - 2) == 0 then row == []
            else
              Tiles(row, depth) && RoomArea(row) == floorArea <==>
              !(floor == 1 && GroundBedrooms(p) < 0 && FixedArea(p) < floorArea)
  {
    hide Row, Area, GroundEntries, UpperEntries, Dealt, Tiles, House, RoomArea;
    HouseByFloor(p, depth, floorArea, floor);
    if floor == 1 {
      GroundTiles(p, depth, floorArea);
    } else {
      var count := Dealt(Wanted(p), p.floors.value - 1, floor - 2);
      UpperFillsFloor(floorArea, count);
      if count > 0 { RowTiles(floor, depth, UpperEntries(floorArea, count)); }
    }
  }

  lemma GroundTiles(p: Project, depth: real, floorArea: real)
    requires depth > 0.0 && depth * depth == floorArea && Computable(p) && FixedArea(p) <= floorArea
    ensures var row := Row(1, depth, GroundEntries(p, floorArea));
            Tiles(row, depth) && RoomArea(row) == floorArea <==> GroundBedrooms(p) >= 0 || FixedArea(p) == floorArea
  {
    hide Row, Area, GroundEntries, Tiles, RoomArea, FixedArea;
    var entries := GroundEntries(p, floorArea);
    assert entries != [] by { GroundKinds(p, floorArea); }
    if GroundBedrooms(p) >= 0 {
      GroundFillsFloor(p, floorArea);
      RowTiles(1, depth, entries);
    } else {
      NegativeShare(p, floorArea);
      if FixedArea(p) == floorArea {
        RowTiles(1, depth, entries);
      } else if Tiles(Row(1, depth, entries), depth) {
        TiledAreNotNegative(Row(1, depth, entries), depth, |entries| - 1);
        RowSteps(1, depth, entries, |entries| - 1);
        assert false;
      }
    }
  }

  lemma UpperFillsFloor(floorArea: real, count: nat)
    requires floorArea >= 0.0
    ensures var entries := UpperEntries(floorArea, count);
            && |entries| == count && (count > 0 ==> Area(entries) == floorArea)
            && forall i :: 0 <= i < count ==> entries[i].kind == "bedroom" && entries[i].area >= 0.0
  {
    if count > 0 {
      ShareOut(floorArea, count);
      RepeatArea(Entry("bedroom", floorArea / count as real), count);
    }
  }

  /** The bedrooms come last on the ground floor, after at least a kitchen. */
  lemma GroundKinds(p: Project, floorArea: real)
    requires Computable(p)
    ensures
        var entries := GroundEntries(p, floorArea);
        var beds := if GroundBedrooms(p) > 0 then GroundBedrooms(p) else 0;
            && |entries| > beds
            && forall i :: 0 <= i < |entries| ==> (entries[i].kind == "bedroom" <==> i >= |entries| - beds)
  {
  }

  /** No two rooms of a tiled row overlap, however far apart they stand. */
  lemma {:induction false} TiledRoomsAreDisjoint(row: seq<Room>, depth: real, i: nat, j: nat)
    requires Tiles(row, depth) && i < j < |row|
    ensures row[i].x + row[i].width <= row[j].x
    decreases j
  {
    assert Abuts(row, j);
    if i < j - 1 { TiledRoomsAreDisjoint(row, depth, i, j - 1); }
  }

  /** The house has exactly the bedrooms the project asked for, on one floor or spread over several, and none when it
      asked for fewer than none. */
  lemma BedroomsAsRequested(p: Project, depth: real, floorArea: real)
    requires depth > 0.0 && Computable(p)
    ensures Bedrooms(House(p, depth, floorArea)) == if Requested(p) >= 0 then Requested(p) else 0
  {
    hide Row, GroundEntries, Bedrooms, FloorRows, Joined;
    BedroomsUpTo(p, depth, floorArea, p.floors.value);
    if p.floors.value > 1 { EveryBedroomIsDealt(Wanted(p), p.floors.value - 1); }
  }

  lemma {:induction false} BedroomsUpTo(p: Project, depth: real, floorArea: real, n: nat)
    requires depth > 0.0 && Computable(p) && 1 <= n <= p.floors.value
    ensures Bedrooms(Joined(FloorRows(p, depth, floorArea, n)))
         == if n == 1 then (if GroundBedrooms(p) > 0 then GroundBedrooms(p) else 0)
           else DealtInAll(Wanted(p), p.floors.value - 1, n - 1)
  {
    hide Row, GroundEntries, Bedrooms, Dealt, Area, Joined;
    var row := Row(n, depth, FloorEntries(p, floorArea, n));
    if n == 1 {
      GroundFirst(p, depth, floorArea);
      GroundHolds(p, depth, floorArea);
    } else {
      BedroomsUpTo(p, depth, floorArea, n - 1);
      JoinOne(FloorRows(p, depth, floorArea, n - 1), row);
      BedroomsConcat(Joined(FloorRows(p, depth, floorArea, n - 1)), row);
      AllBedrooms(row);
    }
  }

  lemma {:induction false} GroundHolds(p: Project, depth: real, floorArea: real)
    requires depth > 0.0 && Computable(p)
    ensures Bedrooms(Row(1, depth, GroundEntries(p, floorArea))) ==
        if GroundBedrooms(p) > 0 then GroundBedrooms(p) else 0
  {
    hide Row;
    var ground := Row(1, depth, GroundEntries(p, floorArea));
    GroundKinds(p, floorArea);
    LastAreBedrooms(ground, |ground| - if GroundBedrooms(p) > 0 then GroundBedrooms(p) else 0);
  }

  lemma LastAreBedrooms(rooms: seq<Room>, k: nat)
    requires k <= |rooms| && forall i :: 0 <= i < |rooms| ==> (rooms[i].kind == "bedroom" <==> i >= k)
    ensures Bedrooms(rooms) == |rooms| - k
  {
    hide Bedrooms;
    assert rooms == rooms[..k] + rooms[k..];
    BedroomsConcat(rooms[..k], rooms[k..]);
    AllBedrooms(rooms[k..]);
    NoBedrooms(rooms[..k]);
  }

  lemma {:induction false} NoBedrooms(rooms: seq<Room>)
    requires forall i :: 0 <= i < |rooms| ==> rooms[i].kind != "bedroom"
    ensures Bedrooms(rooms) == 0
  {
    if rooms != [] { NoBedrooms(DropLast(rooms)); }
  }

  /** Upper floors are dealt bedrooms evenly: two of them differ by at most one, and the lower never has fewer. */
  lemma UpperFloorsAreEven(p: Project, depth: real, floorArea: real, low: nat, high: nat)
    requires depth > 0.0 && Computable(p) && 2 <= low <= high <= p.floors.value
    ensures var lower, upper := OnFloor(House(p, depth, floorArea), low), OnFloor(House(p, depth, floorArea), high);
            |upper| <= |lower| <= |upper| + 1
  {
    hide Row, GroundEntries, House, OnFloor, Wanted;
    HouseByFloor(p, depth, floorArea, low);
    HouseByFloor(p, depth, floorArea, high);
  }
}
