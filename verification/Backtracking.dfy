/** Going back to an earlier phase, and why the router does not undo it. */
module Backtracking {
  import opened Basics
  import opened PyValues
  import opened StateModels
  import opened StateCodec
  import opened TravelPlan
  import opened PhaseRouter

  function EventOf(from: int, to: int, reason: string, snapshotPath: string, now: string): BacktrackEvent {
    BacktrackEvent(Int(from), Int(to), Str(reason), Str(snapshotPath), Str(now))
  }

  /** The plan after an accepted backtrack. */
  ghost function Backtracked(p: Plan, to: int, reason: string, snapshotPath: string, now: string): Plan {
    Cleared(p.(backtrackHistory := p.backtrackHistory + [EventOf(p.phase, to, reason, snapshotPath, now)]),
            to).(phase := to)
  }

  /** A backtrack is refused, and leaves the plan alone, unless it goes to an earlier phase. */
  method Execute(state: TravelPlanState, to: int, reason: string, snapshotPath: string, now: string)
    returns (done: bool)
    modifies state
    ensures done <==> to < old(state.plan).phase
    ensures state.plan == if done then Backtracked(old(state.plan), to, reason, snapshotPath, now) else old(state.plan)
  {
    if to >= state.plan.phase { return false; }
    var event := EventOf(state.plan.phase, to, reason, snapshotPath, now);
    state.plan := state.plan.(backtrackHistory := state.plan.backtrackHistory + [event]);
    state.ClearDownstream(to);
    state.plan := state.plan.(phase := to);
    return true;
  }

  function WithoutDays(p: Plan): Plan { p.(dailyPlans := [], deliverables := Null) }

  function WithoutChoices(p: Plan): Plan {
    WithoutDays(p).(phase2Step := Str("brief"), skeletonPlans := List([]), selectedSkeletonId := Null,
                    transportOptions := List([]), selectedTransport := Null, accommodationOptions := List([]),
                    accommodation := None, risks := List([]), alternatives := List([]))
  }

  function WithoutResearch(p: Plan): Plan {
    WithoutChoices(p).(destination := Null, dates := None, tripBrief := Dict(map[]), candidatePool := List([]),
                       shortlist := List([]), excludedCandidates := [])
  }

  lemma RowsAre(p: Plan)
    ensures WithDefaults(p, DOWNSTREAM_3) == WithoutDays(p)
    ensures WithDefaults(p, {}) == p
  {
  }

  lemma ChoicesRow(p: Plan)
    ensures WithDefaults(p, DOWNSTREAM_2) == WithoutChoices(p)
  {
  }

  lemma ResearchRow(p: Plan)
    ensures WithDefaults(p, DOWNSTREAM_1) == WithoutResearch(p)
  {
  }

  lemma ClearedIs(p: Plan, from: int)
    ensures Cleared(p, from) == if from <= 1 then WithoutResearch(p) else if from == 2 then WithoutChoices(p)
                                else if from == 3 then WithoutDays(p) else p
  {
    DownstreamIsRow(from);
    RowsAre(p);
    ChoicesRow(p);
    ResearchRow(p);
  }

  /** What a backtrack leaves. To phase 1: nothing but identity, party, budget, wishes and histories. To phase 2: also
      destination, dates, brief and research. To phase 3: everything but the days and the deliverables. */
  lemma BacktrackLeaves(p: Plan, to: int, reason: string, snapshotPath: string, now: string)
    ensures var q := Backtracked(p, to, reason, snapshotPath, now);
      var event := BacktrackEvent(Int(p.phase), Int(to), Str(reason), Str(snapshotPath), Str(now));
      var noted := p.(phase := to, backtrackHistory := p.backtrackHistory + [event]);
      q == if to <= 1 then WithoutResearch(noted) else if to == 2 then WithoutChoices(noted)
           else if to == 3 then WithoutDays(noted) else noted
  {
    ClearedIs(p.(backtrackHistory := p.backtrackHistory + [EventOf(p.phase, to, reason, snapshotPath, now)]), to);
  }

  // ----- what clearing does to inference

  /** The fields inference looks at, after clearing `gone`. */
  ghost predicate InferenceFields(q: Plan, p: Plan, gone: set<Attr>) {
    && q.destination == (if Attr.Destination in gone then Null else p.destination)
    && q.dates == (if Attr.Dates in gone then None else p.dates)
    && q.selectedSkeletonId == (if Attr.SelectedSkeletonId in gone then Null else p.selectedSkeletonId)
    && q.skeletonPlans == (if Attr.SkeletonPlans in gone then List([]) else p.skeletonPlans)
    && q.accommodation == (if Attr.Accommodation in gone then None else p.accommodation)
    && q.dailyPlans == (if Attr.DailyPlans in gone then [] else p.dailyPlans)
  }

  lemma ClearedFields(p: Plan, from: int)
    ensures InferenceFields(Cleared(p, from), p, if from <= 1 then DOWNSTREAM_1 else if from == 2 then DOWNSTREAM_2
                                                 else if from == 3 then DOWNSTREAM_3 else {})
  {
    DownstreamIsRow(from);
  }

  /** Clearing never disturbs the declared types, and keeps what is not a product of a phase. */
  lemma ClearedKeeps(p: Plan, from: int)
    ensures var q := Cleared(p, from);
      && (TypesHold(p) ==> TypesHold(q))
      && q.phase == p.phase && q.sessionId == p.sessionId && q.travelers == p.travelers && q.budget == p.budget
      && q.constraints == p.constraints && q.preferences == p.preferences
      && q.decisionEvents == p.decisionEvents && q.lessonEvents == p.lessonEvents
      && q.backtrackHistory == p.backtrackHistory
      && (q.dailyPlans == p.dailyPlans || q.dailyPlans == [])
  {
  }

  /** A complete plan whose date range covers no day. */
  ghost predicate EmptyTripComplete(p: Plan, py: Py)
    requires TypesHold(p)
  {
    p.dates.Some? && py.totalDays(p.dates.value) < 1 && InferredPhase(p, py) == 4
  }

  /** Clearing from a phase takes the inferred phase down to it (to 1 for anything below), except that a
      complete plan of a trip of no days stays complete when only its days are cleared. */
  lemma InferenceAfterClear(p: Plan, from: int, py: Py)
    requires TypesHold(p)
    ensures TypesHold(Cleared(p, from))
    ensures InferredPhase(Cleared(p, from), py) == Min(Max(from, 1), InferredPhase(p, py))
      <==> !(from == 3 && EmptyTripComplete(p, py))
  {
    ClearedKeeps(p, from);
    ClearedFields(p, from);
    var q := Cleared(p, from);
    if from >= 3 { assert SkeletonDaysMatch(q, py) == SkeletonDaysMatch(p, py); }
  }

  /** After a backtrack, the plan already is in its inferred phase - so the next router check leaves it
      there - exactly when the target is a real phase the plan had reached and the trip has a day to plan. */
  lemma BacktrackIsNotBounced(p: Plan, to: int, reason: string, snapshotPath: string, now: string, py: Py)
    requires Lawful(py) && TypesHold(p) && to < p.phase
    ensures var q := Backtracked(p, to, reason, snapshotPath, now);
      && TypesHold(q)
      && (Checked(q, NoHooks, py).1 == false
          <==> 1 <= to <= InferredPhase(p, py) && !(to == 3 && EmptyTripComplete(p, py)))
  {
    var recorded := p.(backtrackHistory := p.backtrackHistory + [EventOf(p.phase, to, reason, snapshotPath, now)]);
    var q := Backtracked(p, to, reason, snapshotPath, now);
    InferenceAfterClear(recorded, to, py);
    assert SkeletonDaysMatch(recorded, py) == SkeletonDaysMatch(p, py);
    var cleared := Cleared(recorded, to);
    assert SkeletonDaysMatch(q, py) == SkeletonDaysMatch(cleared, py);
    assert InferredPhase(q, py) == InferredPhase(cleared, py);
    CheckReachesInferredPhase(q, NoHooks, py);
  }

  /** For a plan the router has settled, every backtrack to phase 1 or later holds, whatever the hooks,
      unless it clears the days of a trip that has none. */
  lemma SettledBacktrackHolds(p: Plan, to: int, reason: string, snapshotPath: string, now: string, hooks: Hooks, py: Py)
    requires Lawful(py) && TypesHold(p) && p.phase == InferredPhase(p, py)
    requires 1 <= to < p.phase && !(to == 3 && p.dates.Some? && py.totalDays(p.dates.value) < 1)
    ensures var q := Backtracked(p, to, reason, snapshotPath, now);
      TypesHold(q) && Checked(q, hooks, py).0.phase == to && !Checked(q, hooks, py).1
  {
    var q := Backtracked(p, to, reason, snapshotPath, now);
    BacktrackIsNotBounced(p, to, reason, snapshotPath, now, py);
    CheckReachesInferredPhase(q, NoHooks, py);
    CheckReachesInferredPhase(q, hooks, py);
  }
}
