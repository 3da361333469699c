/** The day-count check and the time-conflict check of the validator. */
module ItineraryChecks {
  import opened Basics
  import opened Ordering
  import opened PyValues
  import opened StateModels
  import opened PlanWriters

  // ----- day count and coverage

  datatype DayError = TooManyDays(actual: int, allowed: int) | UncoveredDays(allowed: int, found: set<int>)

  predicate Occurs(days: seq<DayPlan>, n: int) { exists i | 0 <= i < |days| :: days[i].day == n }

  function DayNumbers(days: seq<DayPlan>): (r: set<int>)
    ensures forall n :: n in r <==> Occurs(days, n)
  {
    set d | d in days :: d.day
  }

  /** `set(range(1, n + 1))` */
  function Range(n: int): (r: set<int>)
    ensures forall k :: k in r <==> 1 <= k <= n
    ensures |r| == Max(n, 0)
  {
    if n <= 0 then {} else Range(n - 1) + {n}
  }

  method ValidateDayCount(p: Plan, py: Py) returns (errors: seq<DayError>)
    ensures errors == [] <==> DayCountClean(p, py)
    ensures p.dates.Some? && p.dailyPlans != [] ==>
      (TooManyDays(|p.dailyPlans|, py.totalDays(p.dates.value)) in errors
       <==> |p.dailyPlans| > py.totalDays(p.dates.value))
    ensures p.dates.Some? && p.dailyPlans != [] ==>
      var allowed, found := py.totalDays(p.dates.value), DayNumbers(p.dailyPlans);
      (UncoveredDays(allowed, found) in errors <==>
        (|p.dailyPlans| >= allowed && !(|found| == |p.dailyPlans| && found == Range(allowed))))
    ensures |errors| <= 2
  {
    errors := [];
    if p.dates.Some? && p.dailyPlans != [] {
      var allowed := py.totalDays(p.dates.value);
      var actual := |p.dailyPlans|;
      if actual > allowed {
        errors := errors + [TooManyDays(actual, allowed)];
      }
      var found := DayNumbers(p.dailyPlans);
      if actual >= allowed && (|found| != actual || found != Range(allowed)) {
        errors := errors + [UncoveredDays(allowed, found)];
      }
    }
  }

  /** What the check demands of a plan that has both dates and days. */
  ghost predicate DayCountClean(p: Plan, py: Py) {
    p.dates.Some? && p.dailyPlans != [] ==>
      var allowed := py.totalDays(p.dates.value);
      && |p.dailyPlans| <= allowed
      && (|p.dailyPlans| >= allowed ==>
           |DayNumbers(p.dailyPlans)| == |p.dailyPlans| && DayNumbers(p.dailyPlans) == Range(allowed))
  }

  /** Day `i + 1` is in place `i`, and there are as many days as the trip has. */
  ghost predicate CoversTrip(days: seq<DayPlan>, total: int) {
    |days| == total && forall i | 0 <= i < |days| :: days[i].day == i + 1
  }

  ghost predicate AllOccur(days: seq<DayPlan>, n: int) { forall k | 1 <= k <= n :: Occurs(days, k) }

  /** `n` sorted days among which every number up to `n` occurs are the days 1 to `n` in order. */
  lemma {:induction false} SortedCoverIsIdentity(days: seq<DayPlan>, n: nat)
    requires |days| == n && Sorted(days, DayLe) && AllOccur(days, n)
    ensures CoversTrip(days, n)
  {
    if n == 0 {
    } else {
      var front := days[..n - 1];
      assert Occurs(days, n);
      var top :| 0 <= top < n && days[top].day == n;
      assert top == n - 1 || DayLe(days[top], days[n - 1]);
      forall k | 1 <= k <= n - 1 ensures Occurs(front, k) {
        assert Occurs(days, k);
        var i :| 0 <= i < n && days[i].day == k;
        assert front[i].day == k;
      }
      SortedCoverIsIdentity(front, n - 1);
      assert forall i | 0 <= i < n - 1 :: front[i].day == days[i].day;
    }
  }

  lemma IdentityCount(days: seq<DayPlan>, n: nat)
    requires CoversTrip(days, n)
    ensures DayNumbers(days) == Range(n)
  {
    forall k ensures k in DayNumbers(days) <==> k in Range(n) {
      if k in Range(n) { assert days[k - 1].day == k; }
    }
  }

  /** For a sorted itinerary of at least as many days as the trip has, the check reports nothing exactly when the
      itinerary is the days 1, 2, ... of the trip, each once and in order. */
  lemma CleanIffCovered(p: Plan, py: Py)
    requires p.dates.Some? && 1 <= py.totalDays(p.dates.value) <= |p.dailyPlans|
    requires Sorted(p.dailyPlans, DayLe)
    ensures DayCountClean(p, py) <==> CoversTrip(p.dailyPlans, py.totalDays(p.dates.value))
  {
    var n := py.totalDays(p.dates.value);
    if DayCountClean(p, py) {
      forall k | 1 <= k <= n ensures Occurs(p.dailyPlans, k) {
        assert k in Range(n);
        assert k in DayNumbers(p.dailyPlans);
      }
      SortedCoverIsIdentity(p.dailyPlans, n);
    }
    if CoversTrip(p.dailyPlans, n) { IdentityCount(p.dailyPlans, n); }
  }

  // ----- time conflicts

  /** How a time of day is read, and the commute assumed where an activity states none. */
  datatype Clock = Clock(minutes: string -> Option<int>, commute: (Activity, Activity) -> int)

  datatype Conflict = Conflict(day: int, prevName: string, prevEnd: string, travel: real, currName: string,
                               currStart: string, gap: int)

  const NOTHING: seq<Conflict> := []

  /** A number, as an addend; `None` where adding it to a number raises. */
  function Amount(v: Value): Option<real> {
    match v
    case Int(n) => Some(n as real)
    case Float(r) => Some(r)
    case Bool(b) => Some(if b then 1.0 else 0.0)
    case _ => None
  }

  function Travel(prev: Activity, curr: Activity, clock: Clock): Option<real> {
    if Truthy(curr.transportDurationMin) then Amount(curr.transportDurationMin)
    else Some(clock.commute(prev, curr) as real)
  }

  /** A stated duration, if it is not falsy, is the travel; otherwise the assumed commute is. A stated duration that is
      no number cannot be added. */
  lemma TravelIs(prev: Activity, curr: Activity, clock: Clock)
    ensures match curr.transportDurationMin
            case Int(n) => Travel(prev, curr, clock) == Some((if n != 0 then n else clock.commute(prev, curr)) as real)
            case Float(r) =>
              Travel(prev, curr, clock) == Some(if r != 0.0 then r else clock.commute(prev, curr) as real)
            case Bool(b) => Travel(prev, curr, clock) == Some((if b then 1 else clock.commute(prev, curr)) as real)
            case Null => Travel(prev, curr, clock) == Some(clock.commute(prev, curr) as real)
            case Str(s) => Travel(prev, curr, clock).None? <==> s != ""
            case List(xs) => Travel(prev, curr, clock).None? <==> xs != []
            case Dict(m) => Travel(prev, curr, clock).None? <==> m != map[]
    ensures !Truthy(curr.transportDurationMin) ==> Travel(prev, curr, clock) == Some(clock.commute(prev, curr) as real)
  {
  }

  /** What the check says of two neighbours: nothing where a time cannot be read. */
  function Neighbours(day: int, prev: Activity, curr: Activity, clock: Clock): Result<seq<Conflict>> {
    var end, start := clock.minutes(prev.endTime), clock.minutes(curr.startTime);
    if end.None? || start.None? then Ok([])
    else
      var travel := Travel(prev, curr, clock);
      if travel.None? then Err
      else if end.value as real + travel.value > start.value as real then
        Ok([Conflict(day, prev.name, prev.endTime, travel.value, curr.name, curr.startTime, start.value - end.value)])
      else Ok([])
  }

  /** What is reported of two neighbours names them, their times and the gap between them, and the travel that does not
      fit into it; it is reported when both times can be read and the later starts too early, and only then. */
  lemma ConflictSays(day: int, prev: Activity, curr: Activity, clock: Clock)
    ensures var r := Neighbours(day, prev, curr, clock);
      var end, start, travel := clock.minutes(prev.endTime), clock.minutes(curr.startTime), Travel(prev, curr, clock);
      && (r.Err? <==> end.Some? && start.Some? && travel.None?)
      && (r.Ok? && r.value != [] <==>
            (end.Some? && start.Some? && travel.Some? && travel.value > (start.value - end.value) as real))
      && (r.Ok? && r.value != [] ==> |r.value| == 1 && var c := r.value[0];
            && c.day == day && c.prevName == prev.name && c.prevEnd == prev.endTime
            && c.currName == curr.name && c.currStart == curr.startTime
            && Some(c.travel) == travel && c.gap == start.value - end.value)
  {
  }

  /** The reports about the first `n` activities of a day. */
  function DayReports(d: DayPlan, n: nat, clock: Clock): Result<seq<Conflict>>
    requires n <= |d.activities|
  {
    if n <= 1 then Ok([])
    else
      var before :- DayReports(d, n - 1, clock);
      var last :- Neighbours(d.day, d.activities[n - 2], d.activities[n - 1], clock);
      Ok(before + last)
  }

  function Reports(days: seq<DayPlan>, clock: Clock): Result<seq<Conflict>> {
    if days == [] then Ok([])
    else
      var before :- Reports(days[..|days| - 1], clock);
      var d := days[|days| - 1];
      var last :- DayReports(d, |d.activities|, clock);
      Ok(before + last)
  }

  lemma {:induction false} DayReportsFail(d: DayPlan, n: nat, clock: Clock)
    requires n <= |d.activities| && DayReports(d, n, clock).Err?
    ensures DayReports(d, |d.activities|, clock).Err?
    decreases |d.activities| - n
  {
    if n >= |d.activities| {
    } else {
      DayReportsFail(d, n + 1, clock);
    }
  }

  lemma {:induction false} ReportsFail(days: seq<DayPlan>, n: nat, clock: Clock)
    requires n <= |days| && Reports(days[..n], clock).Err?
    ensures Reports(days, clock).Err?
    decreases |days| - n
  {
    if n < |days| {
      assert days[..n + 1][..n] == days[..n];
      ReportsFail(days, n + 1, clock);
    } else {
      assert days[..n] == days;
    }
  }

  method ValidateDay(d: DayPlan, clock: Clock) returns (errors: Result<seq<Conflict>>)
    ensures errors == DayReports(d, |d.activities|, clock)
  {
    var found: seq<Conflict> := [];
    for i := 1 to Max(|d.activities|, 1)
      invariant DayReports(d, Min(i, |d.activities|), clock) == Ok(found)
    {
      assert found + NOTHING == found;
      var prev, curr := d.activities[i - 1], d.activities[i];
      var end, start := clock.minutes(prev.endTime), clock.minutes(curr.startTime);
      if end.Some? && start.Some? {
        var travel := Travel(prev, curr, clock);
        if travel.None? {
          DayReportsFail(d, i + 1, clock);
          return Err;
        }
        if end.value as real + travel.value > start.value as real {
          found := found + [Conflict(d.day, prev.name, prev.endTime, travel.value, curr.name, curr.startTime,
                                     start.value - end.value)];
        }
      }
    }
    return Ok(found);
  }

  method ValidateTimeConflicts(days: seq<DayPlan>, clock: Clock) returns (errors: Result<seq<Conflict>>)
    ensures errors == Reports(days, clock)
  {
    var found: seq<Conflict> := [];
    for k := 0 to |days|
      invariant Reports(days[..k], clock) == Ok(found)
    {
      assert days[..k + 1][..k] == days[..k];
      var day := ValidateDay(days[k], clock);
      if day.Err? {
        ReportsFail(days, k + 1, clock);
        return Err;
      }
      found := found + day.value;
    }
    assert days[..|days|] == days;
    return Ok(found);
  }

  // ----- what a clean report means

  /** Both times can be read, and the activity does not end before it starts. */
  predicate ReadableActivity(a: Activity, clock: Clock) {
    && clock.minutes(a.startTime).Some? && clock.minutes(a.endTime).Some?
    && clock.minutes(a.startTime).value <= clock.minutes(a.endTime).value
  }

  /** From the end of activity i to the start of activity j nothing is in the way of comparing times. */
  ghost predicate Readable(d: DayPlan, i: int, j: int, clock: Clock)
    requires 0 <= i < j < |d.activities|
  {
    && clock.minutes(d.activities[i].endTime).Some? && clock.minutes(d.activities[j].startTime).Some?
    && forall k | i < k < j :: ReadableActivity(d.activities[k], clock)
  }

  /** The travel stated or assumed between activities `i` and `j`. */
  function TravelBetween(d: DayPlan, i: nat, j: nat, clock: Clock): real
    requires i <= j < |d.activities|
    decreases j
  {
    if i == j then 0.0
    else
      var leg := Travel(d.activities[j - 1], d.activities[j], clock);
      TravelBetween(d, i, j - 1, clock) + if leg.Some? then leg.value else 0.0
  }

  /** Between the two activities there is time for all the travel between them. */
  ghost predicate GapFits(d: DayPlan, i: int, j: int, clock: Clock)
    requires 0 <= i < j < |d.activities| && Readable(d, i, j, clock)
  {
    && Travel(d.activities[j - 1], d.activities[j], clock).Some?
    && clock.minutes(d.activities[i].endTime).value as real + TravelBetween(d, i, j, clock)
         <= clock.minutes(d.activities[j].startTime).value as real
  }

  /** So it is for every two activities of the day with a readable stretch between them. */
  ghost predicate EveryGapFits(d: DayPlan, clock: Clock) {
    forall i, j | 0 <= i < j < |d.activities| && Readable(d, i, j, clock) :: GapFits(d, i, j, clock)
  }

  lemma {:induction false} CleanPrefix(d: DayPlan, n: nat, j: nat, clock: Clock)
    requires j + 1 < n <= |d.activities| && DayReports(d, n, clock) == Ok([])
    ensures Neighbours(d.day, d.activities[j], d.activities[j + 1], clock) == Ok([])
  {
    if j + 2 >= n {
    } else {
      CleanPrefix(d, n - 1, j, clock);
    }
  }

  /** Of two neighbours nothing is reported exactly when the travel fits between them, if their times can be read. */
  lemma NeighboursFit(d: DayPlan, j: nat, clock: Clock)
    requires j + 1 < |d.activities|
    ensures Neighbours(d.day, d.activities[j], d.activities[j + 1], clock) == Ok([])
      <==> (Readable(d, j, j + 1, clock) ==> GapFits(d, j, j + 1, clock))
  {
    assert TravelBetween(d, j, j, clock) == 0.0;
    assert Travel(d.activities[j], d.activities[j + 1], clock).Some? ==>
        TravelBetween(d, j, j + 1, clock) == Travel(d.activities[j], d.activities[j + 1], clock).value;
  }

  lemma {:induction false} GapsFitWhenClean(d: DayPlan, i: nat, j: nat, clock: Clock)
    requires i < j < |d.activities| && Readable(d, i, j, clock)
    requires DayReports(d, |d.activities|, clock) == Ok([])
    ensures GapFits(d, i, j, clock)
    decreases j
  {
    CleanPrefix(d, |d.activities|, j - 1, clock);
    NeighboursFit(d, j - 1, clock);
    if i >= j - 1 {
    } else {
      assert ReadableActivity(d.activities[j - 1], clock);
      GapsFitWhenClean(d, i, j - 1, clock);
      assert Readable(d, j - 1, j, clock);
      assert TravelBetween(d, j - 1, j - 1, clock) == 0.0;
    }
  }

  lemma {:induction false} CleanWhenGapsFit(d: DayPlan, n: nat, clock: Clock)
    requires EveryGapFits(d, clock) && n <= |d.activities|
    ensures DayReports(d, n, clock) == Ok([])
  {
    if n <= 1 {
    } else {
      CleanWhenGapsFit(d, n - 1, clock);
      NeighboursFit(d, n - 2, clock);
      assert NOTHING + NOTHING == NOTHING;
    }
  }

  lemma DayCleanIffEveryGapFits(d: DayPlan, clock: Clock)
    ensures DayReports(d, |d.activities|, clock) == Ok([]) <==> EveryGapFits(d, clock)
  {
    if DayReports(d, |d.activities|, clock) == Ok([]) {
      forall i, j | 0 <= i < j < |d.activities| && Readable(d, i, j, clock) ensures GapFits(d, i, j, clock) {
        GapsFitWhenClean(d, i, j, clock);
      }
    }
    if EveryGapFits(d, clock) { CleanWhenGapsFit(d, |d.activities|, clock); }
  }

  /** Looking at neighbours is enough: nothing is reported, and no addition fails, exactly when between every two
      activities of a day with a readable stretch between them there is room for all the travel. */
  lemma {:induction false} CleanIffEveryGapFits(days: seq<DayPlan>, clock: Clock)
    ensures Reports(days, clock) == Ok([]) <==> forall k | 0 <= k < |days| :: EveryGapFits(days[k], clock)
  {
    if days == [] {
    } else {
      var n := |days| - 1;
      var front := days[..n];
      assert forall k | 0 <= k < n :: front[k] == days[k];
      CleanIffEveryGapFits(front, clock);
      DayCleanIffEveryGapFits(days[n], clock);
      assert NOTHING + NOTHING == NOTHING;
    }
  }

  ghost predicate TravelNotNegative(d: DayPlan, i: int, j: int, clock: Clock)
    requires 0 <= i < j < |d.activities|
  {
    forall k | i < k <= j :: Leg(d, k, clock) >= 0.0
  }

  function Leg(d: DayPlan, k: int, clock: Clock): real
    requires 0 < k < |d.activities|
  {
    var leg := Travel(d.activities[k - 1], d.activities[k], clock);
    if leg.Some? then leg.value else 0.0
  }

  lemma {:induction false} TravelAddsUp(d: DayPlan, i: nat, j: nat, clock: Clock)
    requires i < j < |d.activities| && TravelNotNegative(d, i, j, clock)
    ensures TravelBetween(d, i, j, clock) >= 0.0
  {
    assert Leg(d, j, clock) >= 0.0;
    if i >= j - 1 {
    } else {
      TravelAddsUp(d, i, j - 1, clock);
    }
  }

  /** If a later activity starts before an earlier one ends on a day with a clean report, one in between has an
      unreadable time or ends before it starts. */
  lemma OverlapIsHiddenInBetween(d: DayPlan, i: nat, j: nat, clock: Clock)
    requires i < j < |d.activities| && DayReports(d, |d.activities|, clock) == Ok([])
    requires clock.minutes(d.activities[i].endTime).Some? && clock.minutes(d.activities[j].startTime).Some?
    requires TravelNotNegative(d, i, j, clock)
    ensures clock.minutes(d.activities[j].startTime).value < clock.minutes(d.activities[i].endTime).value ==>
      exists k | i < k < j :: !ReadableActivity(d.activities[k], clock)
  {
    if forall k | i < k < j :: ReadableActivity(d.activities[k], clock) {
      GapsFitWhenClean(d, i, j, clock);
      TravelAddsUp(d, i, j, clock);
    }
  }

  lemma ThreeActivities(a: Activity, b: Activity, c: Activity, clock: Clock)
    requires Neighbours(1, a, b, clock) == Ok([]) && Neighbours(1, b, c, clock) == Ok([])
    ensures Reports([DayPlan(1, "", [a, b, c], "")], clock) == Ok([])
  {
    var d := DayPlan(1, "", [a, b, c], "");
    assert NOTHING + NOTHING == NOTHING;
    assert DayReports(d, 1, clock) == Ok([]);
    assert DayReports(d, 2, clock) == Ok([]);
    assert DayReports(d, 3, clock) == Ok([]);
    assert Reports([d][..0], clock) == Ok([]);
  }

  /** With an unreadable time in between, an overlap goes unnoticed. */
  lemma UnreadableTimeHidesOverlap(a: Activity, b: Activity, c: Activity, clock: Clock)
    requires clock.minutes(b.startTime).None? && clock.minutes(b.endTime).None?
    requires clock.minutes(a.endTime) == Some(720) && clock.minutes(c.startTime) == Some(600)
    ensures Reports([DayPlan(1, "", [a, b, c], "")], clock) == Ok([])
  {
    ThreeActivities(a, b, c, clock);
  }

  /** So it does with every time readable, if the activity in between ends before it starts. */
  lemma ReversedTimeHidesOverlap(a: Activity, b: Activity, c: Activity, clock: Clock)
    requires clock.minutes(a.endTime) == Some(600) && clock.minutes(c.startTime) == Some(550)
    requires clock.minutes(b.startTime) == Some(700) && clock.minutes(b.endTime) == Some(500)
    requires Travel(a, b, clock) == Some(0.0) && Travel(b, c, clock) == Some(0.0)
    ensures Reports([DayPlan(1, "", [a, b, c], "")], clock) == Ok([])
  {
    ThreeActivities(a, b, c, clock);
  }
}
