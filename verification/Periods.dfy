/** Protected periods: maximal runs of protected days, and the automaton that enters and leaves them. */
module Periods {
  import opened Prelude

  /** The Hebrew calendar and date formatting are given; days are proleptic Gregorian ordinals. */
  datatype Calendar = Calendar(
    weekdays: set<int>, erev: bool, holidayOf: int -> Option<string>,
    slug: string -> string, year: int -> string, iso: int -> string)

  datatype DayKind = Holiday | Erev | Shabbat | Ordinary

  datatype Period = Period(start: int, end: int, holiday: bool, name: string, branch: string)

  function Classify(cal: Calendar, day: int): (DayKind, string) {
    if cal.holidayOf(day).Some? then (Holiday, cal.holidayOf(day).value)
    else if cal.erev && cal.holidayOf(day + 1).Some? then (Erev, cal.holidayOf(day + 1).value)
    else if (day + 6) % 7 in cal.weekdays then (Shabbat, "weekend")
    else (Ordinary, "")
  }

  predicate Protected(cal: Calendar, day: int) {
    Classify(cal, day).0 != Ordinary
  }

  ghost predicate AllProtected(cal: Calendar, start: int, end: int) {
    forall d :: start <= d <= end ==> Protected(cal, d)
  }

  /** A maximal contiguous run of protected days. */
  ghost predicate Maximal(cal: Calendar, start: int, end: int) {
    start <= end && AllProtected(cal, start, end) && !Protected(cal, start - 1) && !Protected(cal, end + 1)
  }

  /** The name of the first holiday (an Erev does not count) in a span. */
  function FirstHoliday(cal: Calendar, start: int, end: int): Option<string>
    decreases end - start
  {
    if start > end then None
    else if Classify(cal, start).0 == Holiday then Some(Classify(cal, start).1)
    else FirstHoliday(cal, start + 1, end)
  }

  function PeriodOf(cal: Calendar, start: int, end: int): Period {
    var h := FirstHoliday(cal, start, end);
    if h.Some?
    then Period(start, end, true, h.value, "integration/holiday-" + cal.slug(h.value) + "-" + cal.year(start))
    else Period(start, end, false, "weekend", "integration/weekend-" + cal.iso(start))
  }

  ghost predicate IsPeriodAround(cal: Calendar, p: Period, day: int) {
    p.start <= day <= p.end && Maximal(cal, p.start, p.end) && p == PeriodOf(cal, p.start, p.end)
  }

  /** `before` and `after` witness that protection does not go on for ever in either direction. */
  method PeriodContaining(cal: Calendar, day: int, ghost before: int, ghost after: int) returns (p: Option<Period>)
    requires before < day < after && !Protected(cal, before) && !Protected(cal, after)
    ensures p.None? <==> !Protected(cal, day)
    ensures p.Some? ==> IsPeriodAround(cal, p.value, day)
  {
    if !Protected(cal, day) { return None; }
    var start := day;
    while Protected(cal, start - 1)
      invariant before < start <= day && AllProtected(cal, start, day)
      decreases start - before
    {
      start := start - 1;
    }
    var end := day;
    while Protected(cal, end + 1)
      invariant day <= end < after && AllProtected(cal, start, end)
      decreases after - end
    {
      end := end + 1;
    }
    var holiday: Option<string> := None;
    var d := start;
    while d <= end && holiday.None?
      invariant start <= d <= end + 1
      invariant FirstHoliday(cal, start, end) == if holiday.Some? then holiday else FirstHoliday(cal, d, end)
      decreases end - d, holiday.None?
    {
      if Classify(cal, d).0 == Holiday { holiday := Some(Classify(cal, d).1); } else { d := d + 1; }
    }
    if holiday.Some? {
      return Some(Period(start, end, true, holiday.value,
          "integration/holiday-" + cal.slug(holiday.value) + "-" + cal.year(start)));
    }
    return Some(Period(start, end, false, "weekend", "integration/weekend-" + cal.iso(start)));
  }

  /** The first period at or after a day, looked for over `horizon` days. */
  method NextPeriod(cal: Calendar, day: int, horizon: nat, ghost before: int, ghost after: int)
      returns (p: Option<Period>)
    requires before < day && day + horizon <= after && !Protected(cal, before) && !Protected(cal, after)
    ensures p.None? ==> forall d :: day <= d < day + horizon ==> !Protected(cal, d)
    ensures p.Some? ==> exists d :: day <= d < day + horizon && IsPeriodAround(cal, p.value, d)
                            && forall e :: day <= e < d ==> !Protected(cal, e)
  {
    for i := 0 to horizon
      invariant forall d :: day <= d < day + i ==> !Protected(cal, d)
    {
      p := PeriodContaining(cal, day + i, before, after);
      if p.Some? { return; }
    }
    p := None;
  }

  /** A day's period is unique: every day inside a period maps to that very period. */
  lemma PeriodUnique(cal: Calendar, p: Period, q: Period, day: int, other: int)
    requires IsPeriodAround(cal, p, day) && IsPeriodAround(cal, q, other) && p.start <= other <= p.end
    ensures p == q
  {
    assert !(q.start <= p.start - 1 <= q.end);
    assert !(p.start <= q.start - 1 <= p.end);
    assert !(p.start <= q.end + 1 <= p.end);
    assert !(q.start <= p.end + 1 <= q.end);
  }

  /** Two periods are the same or an unprotected day lies between them. */
  lemma PeriodsAreSeparated(cal: Calendar, p: Period, q: Period, dp: int, dq: int)
    requires IsPeriodAround(cal, p, dp) && IsPeriodAround(cal, q, dq) && p != q
    ensures (p.end + 1 < q.start && !Protected(cal, p.end + 1)) || (q.end + 1 < p.start && !Protected(cal, q.end + 1))
  {
    if p.start <= dq <= p.end { PeriodUnique(cal, p, q, dp, dq); }
    if q.start <= dp <= q.end { PeriodUnique(cal, q, p, dq, dp); }
    if dp < dq {
      assert !(q.start <= p.end + 1 <= q.end);
    } else {
      assert !(p.start <= q.end + 1 <= p.end);
    }
  }

  /** Work of a protected period only ever targets an integration branch. */
  lemma PeriodBranchIsIntegration(cal: Calendar, p: Period, day: int)
    requires IsPeriodAround(cal, p, day)
    ensures StartsWith(p.branch, "integration/")
  {
  }

  // --- the automaton -----------------------------------------------------------------------------

  /** The orchestrator's memory, the persisted meta values, and every period started so far. Ending a period saves two
      values one after the other: that there is none, then through which day it is closed; `ending` is a period the
      tick, `endingElsewhere` one another process has ended and not yet closed. */
  datatype Keeper = Keeper(period: Option<Period>, persisted: Option<Period>, closedThrough: Option<int>,
                           ending: Option<Period>, endingElsewhere: Option<Period>, started: seq<Period>)

  const FRESH := Keeper(None, None, None, None, None, [])

  datatype Step =
    | Tick(today: int, found: Option<Period>)  // `found`: the period containing today
    | TickCloses
    | StartElsewhere(p: Period)                // `agentctl period start`, of the present period or the next
    | EndElsewhere                             // `agentctl period end`
    | ElsewhereCloses
    | ElsewhereDies
    | Restart

  function Began(k: Keeper, p: Period): Keeper {
    k.(period := Some(p), persisted := Some(p), started := k.started + [p])
  }

  function CheckPeriod(k: Keeper, today: int, found: Option<Period>): Keeper {
    var k' := if k.period.Some? && k.persisted.None? then k.(period := None) else k;
    if k'.period.None? then
      if found.Some? && (k'.closedThrough.None? || found.value.end > k'.closedThrough.value) then Began(k', found.value)
      else k'
    else if today > k'.period.value.end then k'.(period := None, persisted := None, ending := k'.period)
    else k'
  }

  function Closed(k: Keeper): Keeper {
    if k.ending.Some? then k.(ending := None, closedThrough := Some(k.ending.value.end)) else k
  }

  function After(k: Keeper, step: Step): Keeper {
    match step
    case Tick(today, found) => if k.ending.Some? then k else CheckPeriod(k, today, found)
    case TickCloses => Closed(k)
    case StartElsewhere(p) =>  // it asks neither the orchestrator's memory nor what is closed
      if k.persisted.None? then k.(persisted := Some(p), started := k.started + [p]) else k
    case EndElsewhere =>
      if k.persisted.Some? && k.endingElsewhere.None? then k.(persisted := None, endingElsewhere := k.persisted) else k
    case ElsewhereCloses =>
      if k.endingElsewhere.Some? then k.(endingElsewhere := None, closedThrough := Some(k.endingElsewhere.value.end))
      else k
    case ElsewhereDies => k.(endingElsewhere := None)
    case Restart => k.(period := k.persisted, ending := None)
  }

  class PeriodKeeper {
    const cal: Calendar
    var period: Option<Period>
    var persisted: Option<Period>
    var closedThrough: Option<int>
    var ending: Option<Period>
    var endingElsewhere: Option<Period>
    ghost var started: seq<Period>

    ghost function State(): Keeper
      reads this
    {
      Keeper(period, persisted, closedThrough, ending, endingElsewhere, started)
    }

    constructor (cal: Calendar)
      ensures State() == FRESH && this.cal == cal
    {
      this.cal := cal;
      period, persisted, closedThrough, ending, endingElsewhere, started := None, None, None, None, None, [];
    }

    /** One tick whose process lives: a period it ends is closed before it returns. */
    method CheckPeriodAt(today: int, ghost before: int, ghost after: int) returns (ghost found: Option<Period>)
      requires before < today < after && !Protected(cal, before) && !Protected(cal, after) && ending.None?
      modifies this
      ensures State() == After(After(old(State()), Tick(today, found)), TickCloses)
      ensures found.Some? ==> IsPeriodAround(cal, found.value, today)
    {
      found := None;
      if period.Some? && persisted.None? { period := None; }
      if period.None? {
        var p := PeriodContaining(cal, today, before, after);
        found := p;
        if p.Some? && (closedThrough.None? || p.value.end > closedThrough.value) {
          period, persisted := p, p;
          started := started + [p.value];
        }
      } else if today > period.value.end {
        ending := period;
        period, persisted := None, None;
        closedThrough := Some(ending.value.end);
        ending := None;
      }
    }
  }

  function Run(steps: seq<Step>): Keeper {
    if steps == [] then FRESH else After(Run(DropLast(steps)), Last(steps))
  }

  predicate InGap(k: Keeper) {
    k.ending.Some? || k.endingElsewhere.Some?
  }

  /** Nothing comes between the two saves of an ending, and no other process starts a period. */
  predicate Uninterrupted(steps: seq<Step>) {
    steps != [] ==>
      && Uninterrupted(DropLast(steps)) && !Last(steps).StartElsewhere?
      && var k := Run(DropLast(steps));
         && (k.ending.Some? ==> Last(steps) == TickCloses)
         && (k.endingElsewhere.Some? ==> Last(steps) == ElsewhereCloses)
  }

  ghost predicate KeeperOk(k: Keeper) {
    && (forall i, j :: 0 <= i < j < |k.started| ==> k.started[i].end < k.started[j].end)
    && (k.persisted.Some? ==>
          k.period == k.persisted && (k.closedThrough.None? || k.persisted.value.end > k.closedThrough.value))
    && (k.period.Some? ==> k.started != [] && Last(k.started) == k.period.value)
    && (k.ending.None? || k.endingElsewhere.None?)
    && (InGap(k) ==>
          k.persisted.None? && k.started != []
              && (k.ending == Some(Last(k.started)) || k.endingElsewhere == Some(Last(k.started))))
    && (!InGap(k) && k.persisted.None? && k.started != [] ==>
          k.closedThrough.Some? && k.closedThrough.value >= Last(k.started).end)
  }

  lemma TickKeepsOk(k: Keeper, today: int, found: Option<Period>)
    requires KeeperOk(k) && !InGap(k)
    ensures KeeperOk(CheckPeriod(k, today, found))
  {
  }

  lemma StepKeepsOk(k: Keeper, step: Step)
    requires KeeperOk(k) && (k.ending.Some? ==> step == TickCloses)
    requires (k.endingElsewhere.Some? ==> step == ElsewhereCloses) && !step.StartElsewhere?
    ensures KeeperOk(After(k, step))
  {
    hide CheckPeriod;
    if step.Tick? { TickKeepsOk(k, step.today, step.found); }
  }

  lemma {:induction false} KeeperStaysOk(steps: seq<Step>)
    requires Uninterrupted(steps)
    ensures KeeperOk(Run(steps))
  {
    hide After, KeeperOk;
    if steps != [] {
      KeeperStaysOk(DropLast(steps));
      StepKeepsOk(Run(DropLast(steps)), Last(steps));
    } else {
      FreshIsOk();
    }
  }

  lemma FreshIsOk()
    ensures KeeperOk(FRESH)
  {
  }

  /** Over any sequence of ticks (the clock may even jump), ends ordered by other processes and restarts in which no
      step comes between the two saves of an ending, the periods started have strictly increasing end dates: an ended
      period is never entered again. */
  lemma StartedPeriodsOnlyAdvance(steps: seq<Step>, i: nat, j: nat)
    requires Uninterrupted(steps) && i < j < |Run(steps).started|
    ensures Run(steps).started[i].end < Run(steps).started[j].end
  {
    KeeperStaysOk(steps);
  }

  // --- a clock that goes forwards ------------------------------------------------------------------

  function LastToday(steps: seq<Step>): Option<int> {
    if steps == [] then None else if Last(steps).Tick? then Some(Last(steps).today) else LastToday(DropLast(steps))
  }

  /** The clock never goes back, and a tick finds no period that is over. */
  predicate Forward(steps: seq<Step>) {
    steps != [] ==>
      && Forward(DropLast(steps))
      && match Last(steps)
         case Tick(today, found) =>
           && (LastToday(DropLast(steps)).Some? ==> LastToday(DropLast(steps)).value <= today)
           && (found.Some? ==> today <= found.value.end)
         case _ => true
  }

  /** Nothing comes between the two saves of another process, and none starts a period. */
  predicate OthersUninterrupted(steps: seq<Step>) {
    steps != [] ==>
      && OthersUninterrupted(DropLast(steps)) && !Last(steps).StartElsewhere?
      && (Run(DropLast(steps)).endingElsewhere.Some? ==> Last(steps) == ElsewhereCloses)
  }

  predicate Over(k: Keeper, last: Option<int>)
    requires k.started != []
  {
    || (k.closedThrough.Some? && k.closedThrough.value >= Last(k.started).end)
    || (last.Some? && last.value > Last(k.started).end)
  }

  ghost predicate ForwardOk(k: Keeper, last: Option<int>) {
    && (forall i, j :: 0 <= i < j < |k.started| ==> k.started[i].end < k.started[j].end)
    && (k.persisted.Some? ==> k.period == k.persisted)
    && (k.period.Some? ==> k.started != [] && Last(k.started) == k.period.value)
    && (k.ending.Some? ==>
          && k.persisted.None? && k.endingElsewhere.None? && k.started != []
          && last.Some? && last.value > Last(k.started).end)
    && (k.endingElsewhere.Some? ==>
          k.persisted.None? && k.started != [] && k.endingElsewhere == Some(Last(k.started)))
    && (k.persisted.None? && k.endingElsewhere.None? && k.started != [] ==> Over(k, last))
  }

  lemma ForwardTick(k: Keeper, last: Option<int>, today: int, found: Option<Period>)
    requires ForwardOk(k, last) && k.ending.None? && k.endingElsewhere.None?
    requires (last.Some? ==> last.value <= today) && (found.Some? ==> today <= found.value.end)
    ensures ForwardOk(CheckPeriod(k, today, found), Some(today))
  {
  }

  lemma ForwardStep(k: Keeper, last: Option<int>, step: Step)
    requires ForwardOk(k, last) && (k.endingElsewhere.Some? ==> step == ElsewhereCloses) && !step.StartElsewhere?
    requires step.Tick? ==>
        (last.Some? ==> last.value <= step.today) && (step.found.Some? ==> step.today <= step.found.value.end)
    ensures ForwardOk(After(k, step), if step.Tick? then Some(step.today) else last)
  {
    hide CheckPeriod;
    if step.Tick? && k.ending.None? { ForwardTick(k, last, step.today, step.found); }
  }

  lemma {:induction false} ForwardStaysOk(steps: seq<Step>)
    requires Forward(steps) && OthersUninterrupted(steps)
    ensures ForwardOk(Run(steps), LastToday(steps))
  {
    hide After, ForwardOk;
    if steps != [] {
      ForwardStaysOk(DropLast(steps));
      ForwardStep(Run(DropLast(steps)), LastToday(DropLast(steps)), Last(steps));
    } else {
      FreshIsForward();
    }
  }

  lemma FreshIsForward()
    ensures ForwardOk(FRESH, None)
  {
  }

  /** With a clock that goes forwards the orchestrator may crash, or dawdle, between its own two saves as well: started
      periods still have strictly increasing end dates. */
  lemma ForwardPeriodsOnlyAdvance(steps: seq<Step>, i: nat, j: nat)
    requires Forward(steps) && OthersUninterrupted(steps) && i < j < |Run(steps).started|
    ensures Run(steps).started[i].end < Run(steps).started[j].end
  {
    ForwardStaysOk(steps);
  }

  // --- between the two saves -----------------------------------------------------------------------

  function RunFrom(k: Keeper, steps: seq<Step>): Keeper
    decreases steps
  {
    if steps == [] then k else RunFrom(After(k, steps[0]), steps[1..])
  }

  /** The rest of a period's days: ticks that find it, restarts, and the fate of the process that ended it. */
  predicate SamePeriod(steps: seq<Step>, p: Period) {
    forall s :: s in steps ==> StaysIn(s, p)
  }

  predicate StaysIn(s: Step, p: Period) {
    s == Restart || s == ElsewhereCloses || s == ElsewhereDies || (s.Tick? && s.found == Some(p) && s.today <= p.end)
  }

  /** Some tick comes before the closing, which never comes if the process dies first. */
  predicate TickBeforeClosing(steps: seq<Step>, owed: bool) {
    steps != [] &&
      match steps[0]
      case Tick(_, _) => true
      case ElsewhereCloses => !owed && TickBeforeClosing(steps[1..], false)
      case ElsewhereDies => TickBeforeClosing(steps[1..], false)
      case _ => TickBeforeClosing(steps[1..], owed)
  }

  lemma {:induction false} ClosedStaysClosed(k: Keeper, p: Period, steps: seq<Step>)
    requires SamePeriod(steps, p) && k.persisted.None? && k.ending.None? && k.endingElsewhere.None?
    requires k.closedThrough.Some? && k.closedThrough.value >= p.end
    ensures RunFrom(k, steps).started == k.started
    decreases steps
  {
    if steps != [] {
      assert steps[0] in steps;
      ClosedStaysClosed(After(k, steps[0]), p, steps[1..]);
    }
  }

  lemma {:induction false} StartedOnlyGrows(k: Keeper, steps: seq<Step>)
    ensures |RunFrom(k, steps).started| >= |k.started|
    ensures RunFrom(k, steps).started[..|k.started|] == k.started
    decreases steps
  {
    if steps != [] {
      var next := After(k, steps[0]);
      StartedOnlyGrows(next, steps[1..]);
      assert next.started[..|k.started|] == k.started;
      var last := RunFrom(k, steps).started;
      assert last[..|k.started|] == last[..|next.started|][..|k.started|];
    }
  }

  lemma {:induction false} GapDecides(k: Keeper, p: Period, steps: seq<Step>)
    requires SamePeriod(steps, p) && k.persisted.None? && k.ending.None? && k.endingElsewhere in {None, Some(p)}
    requires k.closedThrough.None? || p.end > k.closedThrough.value
    ensures (k.started + [p] <= RunFrom(k, steps).started) <==> TickBeforeClosing(steps, k.endingElsewhere.Some?)
    ensures !TickBeforeClosing(steps, k.endingElsewhere.Some?) ==> RunFrom(k, steps).started == k.started
    decreases steps
  {
    if steps != [] {
      var next := After(k, steps[0]);
      assert steps[0] in steps;
      if steps[0].Tick? {
        assert next.started == k.started + [p];
        StartedOnlyGrows(next, steps[1..]);
      } else if steps[0] == ElsewhereCloses && k.endingElsewhere.Some? {
        ClosedStaysClosed(next, p, steps[1..]);
      } else {
        GapDecides(next, p, steps[1..]);
      }
    }
  }

  /** A period ended early by another process is entered again in what remains of its days if and only if some tick
      comes before that process has closed it; if it dies in between, the next tick does. */
  lemma EndedEarlyExactly(steps: seq<Step>, p: Period, later: seq<Step>)
    requires Uninterrupted(steps) && Run(steps).persisted == Some(p) && !InGap(Run(steps)) && SamePeriod(later, p)
    ensures var k := Run(steps);
            (k.started + [p] <= RunFrom(After(k, EndElsewhere), later).started) <==> TickBeforeClosing(later, true)
  {
    KeeperStaysOk(steps);
    GapDecides(After(Run(steps), EndElsewhere), p, later);
  }

  // --- the lead's own start ------------------------------------------------------------------------

  /** While a closed period lasts, nothing but the lead's command enters it. */
  lemma {:induction false} OnlyTheLeadEnters(k: Keeper, p: Period, steps: seq<Step>)
    requires k.persisted.None? && k.ending.None? && k.endingElsewhere.None?
    requires k.closedThrough.Some? && k.closedThrough.value >= p.end
    requires forall s :: s in steps ==> StaysIn(s, p) || s == StartElsewhere(p)
    ensures k.started + [p] <= RunFrom(k, steps).started <==> StartElsewhere(p) in steps
    ensures StartElsewhere(p) !in steps ==> RunFrom(k, steps).started == k.started
    decreases steps
  {
    if steps != [] {
      var next := After(k, steps[0]);
      assert steps[0] in steps && steps == [steps[0]] + steps[1..];
      if steps[0] == StartElsewhere(p) {
        StartedOnlyGrows(next, steps[1..]);
      } else {
        OnlyTheLeadEnters(next, p, steps[1..]);
      }
    }
  }

  /** A period that is over and closed is entered again in what remains of its days if and only if the lead starts it:
      the command does not consult through which day periods are closed. */
  lemma LeadReentersExactly(steps: seq<Step>, p: Period, later: seq<Step>)
    requires Uninterrupted(steps) && p in Run(steps).started && Run(steps).persisted.None? && !InGap(Run(steps))
    requires forall s :: s in later ==> StaysIn(s, p) || s == StartElsewhere(p)
    ensures var k := Run(steps); k.started + [p] <= RunFrom(k, later).started <==> StartElsewhere(p) in later
  {
    KeeperStaysOk(steps);
    var k := Run(steps);
    var i :| 0 <= i < |k.started| && k.started[i] == p;
    assert i < |k.started| - 1 ==> p.end < Last(k.started).end;
    OnlyTheLeadEnters(k, p, later);
  }

  /** The orchestrator does not follow such a start: its next tick starts the period once more, unless that is closed or
      the orchestrator remembers a period whose ending by another process it has not noticed yet. */
  lemma LeadStartIsRepeated(steps: seq<Step>, p: Period, today: int)
    requires Uninterrupted(steps) && Run(steps).persisted.None? && !InGap(Run(steps)) && today <= p.end
    ensures var k := Run(steps);
            var again := k.period.None? && (k.closedThrough.None? || p.end > k.closedThrough.value);
            RunFrom(k, [StartElsewhere(p), Tick(today, Some(p))]).started ==
            k.started + [p] + if again then [p] else []
  {
    var k := Run(steps);
    var k1, k2 := After(k, StartElsewhere(p)), After(After(k, StartElsewhere(p)), Tick(today, Some(p)));
    var both: seq<Step> := [StartElsewhere(p), Tick(today, Some(p))];
    assert both[1..] == [Tick(today, Some(p))] && both[1..][1..] == [];
    assert RunFrom(k2, []) == k2 && RunFrom(k1, both[1..]) == RunFrom(k2, both[1..][1..]);
  }
}
