/** Runs of tool writes, router checks and backtracks over one plan. */
module PlanRun {
  import opened Basics
  import opened Ordering
  import opened PyValues
  import opened StateModels
  import opened StateCodec
  import opened PlanCodec
  import opened TravelPlan
  import opened PhaseRouter
  import opened Backtracking
  import opened PlanWriters
  import opened ItineraryChecks

  datatype Op =
    | WriteField(write: FieldWrite)
    | AppendDay(day: Record)
    | ReplaceDays(days: seq<Value>)
    | ReplaceDay(day: Record)
    | Backtrack(to: int, reason: string, now: string)
    | Check(hooks: Hooks)

  function OrSame(p: Plan, r: Result<Plan>): Plan { if r.Ok? then r.value else p }

  /** One operation; one that fails leaves the plan as it was. */
  ghost function Step(p: Plan, op: Op, py: Py): (q: Plan)
    requires Lawful(py) && TypesHold(p)
  {
    match op
    case WriteField(w) => FieldWritten(p, w, py)
    case AppendDay(day) => OrSame(p, AppendedDay(p, day, py))
    case ReplaceDays(days) => OrSame(p, ReplacedDays(p, days, py))
    case ReplaceDay(day) => OrSame(p, ReplacedDay(p, day, py))
    case Backtrack(to, reason, now) => if to < p.phase then Backtracked(p, to, reason, "", now) else p
    case Check(hooks) => Checked(p, hooks, py).0
  }

  method Perform(state: TravelPlanState, op: Op, py: Py)
    requires Lawful(py) && TypesHold(state.plan)
    modifies state
    ensures state.plan == Step(old(state.plan), op, py)
  {
    match op {
      case WriteField(w) => state.plan := FieldWritten(state.plan, w, py);
      case AppendDay(day) => var _ := AppendOneDayPlan(state, day, py);
      case ReplaceDays(days) => var _ := ReplaceAllDailyPlans(state, days, py);
      case ReplaceDay(day) => var _ := ReplaceOneDayPlan(state, day, py);
      case Backtrack(to, reason, now) => var _ := Execute(state, to, reason, "", now);
      case Check(hooks) => var _ := CheckAndApplyTransition(state, hooks, py);
    }
  }

  // ----- the invariant

  predicate GoesBack(e: BacktrackEvent) {
    e.fromPhase.Int? && e.toPhase.Int? && 1 <= e.toPhase.n < e.fromPhase.n <= 4
  }

  ghost predicate RunInvariant(p: Plan) {
    && TypesHold(p)
    && 1 <= p.phase <= 4
    && Sorted(p.dailyPlans, DayLe)
    && forall i | 0 <= i < |p.backtrackHistory| :: GoesBack(p.backtrackHistory[i])
  }

  lemma SortedDaysKeepInvariant(p: Plan, q: Plan, days: seq<DayPlan>)
    requires RunInvariant(p) && q == p.(dailyPlans := SortBy(days, DayLe), decisionEvents := q.decisionEvents)
    ensures RunInvariant(q)
  {
    DayLeIsPreorder();
    SortBySorted(days, DayLe);
  }

  lemma DayWritesKeepInvariant(p: Plan, op: Op, py: Py)
    requires Lawful(py) && RunInvariant(p) && (op.AppendDay? || op.ReplaceDays? || op.ReplaceDay?)
    ensures RunInvariant(Step(p, op, py)) && Step(p, op, py).backtrackHistory == p.backtrackHistory
  {
    var q := Step(p, op, py);
    match op {
      case AppendDay(day) =>
        var d := DayPlanFrom(Dict(day), py);
        if d.Ok? { SortedDaysKeepInvariant(p, q, p.dailyPlans + [d.value]); }
      case ReplaceDays(days) =>
        var read := TryMapped(DayPlanReader(py), days);
        if read.Ok? { SortedDaysKeepInvariant(p, q, read.value); }
      case ReplaceDay(day) =>
        if ReplacedDay(p, day, py).Ok? {
          if forall e | e in p.dailyPlans :: !SameNumber(e.day, day[Field.Day]) {
            SortedDaysKeepInvariant(p, q, p.dailyPlans);
          } else {
            SortedDaysKeepInvariant(p, q, ReplaceIn(p.dailyPlans, day[Field.Day], DayPlanFrom(Dict(day), py).value));
          }
        }
      case _ =>
    }
  }

  lemma CheckKeepsInvariant(p: Plan, hooks: Hooks, py: Py)
    requires Lawful(py) && RunInvariant(p)
    ensures RunInvariant(Checked(p, hooks, py).0) && Checked(p, hooks, py).0.backtrackHistory == p.backtrackHistory
  {
    CheckReachesInferredPhase(p, hooks, py);
    SyncedTwice(p, py);
  }

  lemma BacktrackKeepsInvariant(p: Plan, to: int, reason: string, now: string)
    requires RunInvariant(p) && to < p.phase
    ensures RunInvariant(Backtracked(p, to, reason, "", now)) <==> to >= 1
    ensures Backtracked(p, to, reason, "", now).backtrackHistory
            == p.backtrackHistory + [EventOf(p.phase, to, reason, "", now)]
    ensures TypesHold(Backtracked(p, to, reason, "", now))
  {
    var event := EventOf(p.phase, to, reason, "", now);
    var recorded := p.(backtrackHistory := p.backtrackHistory + [event]);
    ClearedKeeps(recorded, to);
    var q := Backtracked(p, to, reason, "", now);
    assert q.backtrackHistory[|p.backtrackHistory|] == event;
    assert forall i | 0 <= i < |p.backtrackHistory| :: q.backtrackHistory[i] == p.backtrackHistory[i];
  }

  /** Every operation keeps the invariant, except exactly a backtrack to a phase that does not exist. */
  lemma StepKeepsInvariant(p: Plan, op: Op, py: Py)
    requires Lawful(py) && RunInvariant(p)
    ensures RunInvariant(Step(p, op, py)) <==> !(op.Backtrack? && op.to < 1)
    ensures TypesHold(Step(p, op, py)) && p.backtrackHistory <= Step(p, op, py).backtrackHistory
  {
    match op {
      case WriteField(w) => FieldWritesKeep(p, w, py);
      case AppendDay(_) => DayWritesKeepInvariant(p, op, py);
      case ReplaceDays(_) => DayWritesKeepInvariant(p, op, py);
      case ReplaceDay(_) => DayWritesKeepInvariant(p, op, py);
      case Backtrack(to, reason, now) => if to < p.phase { BacktrackKeepsInvariant(p, to, reason, now); }
      case Check(hooks) => CheckKeepsInvariant(p, hooks, py);
    }
  }

  // ----- runs

  predicate RealPhases(ops: seq<Op>) {
    forall i | 0 <= i < |ops| :: ops[i].Backtrack? ==> ops[i].to >= 1
  }

  ghost function Run(p: Plan, ops: seq<Op>, py: Py): (q: Plan)
    requires Lawful(py) && RunInvariant(p) && RealPhases(ops)
    ensures RunInvariant(q) && p.backtrackHistory <= q.backtrackHistory
    decreases |ops|
  {
    if ops == [] then p
    else
      StepKeepsInvariant(p, ops[0], py);
      Run(Step(p, ops[0], py), ops[1..], py)
  }

  /** Run the operations on a state object. */
  method PerformAll(state: TravelPlanState, ops: seq<Op>, py: Py)
    requires Lawful(py) && RunInvariant(state.plan) && RealPhases(ops)
    modifies state
    ensures state.plan == Run(old(state.plan), ops, py)
    ensures RunInvariant(state.plan)
  {
    for i := 0 to |ops|
      invariant RunInvariant(state.plan)
      invariant Run(old(state.plan), ops, py) == Run(state.plan, ops[i..], py)
    {
      assert ops[i..][1..] == ops[i + 1..];
      StepKeepsInvariant(state.plan, ops[i], py);
      Perform(state, ops[i], py);
    }
  }

  /** After any run, a router check that brings the plan to phase 4 of a trip of at least one day, and a clean
      day-count check, mean that the itinerary is exactly the days of the trip in order - and conversely such
      an itinerary is reported clean. */
  lemma PhaseFourCoverage(start: Plan, ops: seq<Op>, py: Py)
    requires Lawful(py) && RunInvariant(start) && RealPhases(ops)
    ensures var p := Checked(Run(start, ops, py), NoHooks, py).0;
      p.phase == 4 ==>
        p.dates.Some? && (py.totalDays(p.dates.value) >= 1 ==>
          (DayCountClean(p, py) <==> CoversTrip(p.dailyPlans, py.totalDays(p.dates.value))))
  {
    var before := Run(start, ops, py);
    CheckKeepsInvariant(before, NoHooks, py);
    CheckReachesInferredPhase(before, NoHooks, py);
    var p := Checked(before, NoHooks, py).0;
    if p.phase == 4 {
      assert Ready(p, 4, py);
      if py.totalDays(p.dates.value) >= 1 { CleanIffCovered(p, py); }
    }
  }

  /** After any run, two checks in a row under the same hooks are one, and a backtrack right after a check
      without hooks survives the next check. */
  lemma RunsSettle(start: Plan, ops: seq<Op>, hooks: Hooks, to: int, reason: string, now: string, py: Py)
    requires Lawful(py) && RunInvariant(start) && RealPhases(ops)
    ensures var p := Checked(Run(start, ops, py), hooks, py).0;
      TypesHold(p) && Checked(p, hooks, py) == (p, false)
    ensures var p := Checked(Run(start, ops, py), NoHooks, py).0;
      1 <= to < p.phase && !(to == 3 && p.dates.Some? && py.totalDays(p.dates.value) < 1) ==>
        var q := Backtracked(p, to, reason, "", now);
        TypesHold(q) && Checked(q, hooks, py).0.phase == to
  {
    var before := Run(start, ops, py);
    CheckTwice(before, hooks, py);
    CheckReachesInferredPhase(before, NoHooks, py);
    var p := Checked(before, NoHooks, py).0;
    if 1 <= to < p.phase && !(to == 3 && p.dates.Some? && py.totalDays(p.dates.value) < 1) {
      SettledBacktrackHolds(p, to, reason, "", now, hooks, py);
    }
  }

  // ----- where it starts

  /** A new state object's fields. */
  function NewPlan(sessionId: string, now: string): Plan {
    Plan(Str(sessionId), Null, 1, Null, None, Str("brief"),
         Dict(map[]), List([]), List([]), [],
         List([]), Null, List([]), Null,
         List([]), None, None, None,
         List([]), List([]), [], Null,
         [], [], [], [],
         [], Str(now), Str(now), CURRENT_STATE_VERSION)
  }

  lemma NewPlanIsSettled(sessionId: string, now: string, py: Py)
    ensures RunInvariant(NewPlan(sessionId, now)) && InferredPhase(NewPlan(sessionId, now), py) == 1
  {
  }

  /** A complete plan of a trip of no days: going back to phase 3 leaves it complete, and the next check
      puts it in phase 4 again. */
  lemma EmptyTripIsBounced(p: Plan, reason: string, now: string, py: Py)
    requires Lawful(py) && TypesHold(p) && p.phase == 4 && EmptyTripComplete(p, py)
    ensures var q := Backtracked(p, 3, reason, "", now);
      TypesHold(q) && q.phase == 3 && Checked(q, NoHooks, py).0.phase == 4
  {
    var recorded := p.(backtrackHistory := p.backtrackHistory + [EventOf(4, 3, reason, "", now)]);
    var q := Backtracked(p, 3, reason, "", now);
    ClearedFields(recorded, 3);
    ClearedKeeps(recorded, 3);
    CompleteAlike(p, q, py);
    CheckReachesInferredPhase(q, NoHooks, py);
  }

  /** Completeness depends on these fields only. */
  lemma CompleteAlike(p: Plan, q: Plan, py: Py)
    requires TypesHold(p) && TypesHold(q) && EmptyTripComplete(p, py)
    requires q.destination == p.destination && q.dates == p.dates && q.selectedSkeletonId == p.selectedSkeletonId
    requires q.skeletonPlans == p.skeletonPlans && q.accommodation == p.accommodation
    ensures InferredPhase(q, py) == 4
  {
    assert SkeletonDaysMatch(q, py) == SkeletonDaysMatch(p, py);
    assert Ready(q, 4, py);
  }

  /** There are such plans: dates the wrong way round are enough. */
  lemma EmptyTripExists(dates: DateRange, stay: Accommodation, py: Py)
    requires py.totalDays(dates) < 1
    ensures var p := NewPlan("s", "").(phase := 4, destination := Str("Kyoto"), dates := Some(dates),
                                       selectedSkeletonId := Str("slow"), accommodation := Some(stay));
      RunInvariant(p) && EmptyTripComplete(p, py)
  {
    var p := NewPlan("s", "").(phase := 4, destination := Str("Kyoto"), dates := Some(dates),
                               selectedSkeletonId := Str("slow"), accommodation := Some(stay));
    assert p.dailyPlans == [];
    assert Ready(p, 4, py);
  }
}
