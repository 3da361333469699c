/** The whole plan as a dictionary and back: what a save and a load keep. */
module PlanCodec {
  import opened Basics
  import opened PyValues
  import opened StateModels
  import opened StateCodec

  const SUPPORTED_PHASES := {1, 2, 3, 4}

  // ----- reading

  /** `Cls.from_dict(d[key]) if d.get(key) else None` */
  function ReadOptional<T>(v: Value, read: Value -> Result<T>): Result<Option<T>> {
    if !Truthy(v) then Ok(None)
    else
      var x :- read(v);
      Ok(Some(x))
  }

  /** `[Cls.from_dict(x) for x in v]` */
  function ReadList<T>(v: Value, read: Value -> Result<T>, py: Py): Result<seq<T>> {
    var items := py.iter(v);
    if items.None? then Err else TryMapped(read, items.value)
  }

  function ExcludedReader(py: Py): Value -> Result<ExcludedCandidate> { v => Ok(ExcludedFrom(v, py)) }
  function DayPlanReader(py: Py): Value -> Result<DayPlan> { v => DayPlanFrom(v, py) }
  function PreferenceReader(py: Py): Value -> Result<Preference> { v => PreferenceFrom(v, py) }
  function EventReader(py: Py): Value -> Result<Record> {
    v => var m := py.dict(v); if m.Some? then Ok(m.value) else Err
  }

  function PlanFrom(d: Record, py: Py): Result<Plan> {
    var rawVersion := py.int_(Or(Get(d, Field.Version, Int(1)), Int(1)));
    var phase := py.int_(Get(d, Field.Phase, Int(1)));
    if rawVersion.None? || phase.None? || phase.value !in SUPPORTED_PHASES || Field.SessionId !in d then Err
    else
      var dates :- ReadOptional(Get(d, Field.Dates, Null), DateRangeFrom);
      var accommodation :- ReadOptional(Get(d, Field.AccommodationField, Null), AccommodationFrom);
      var tripBrief := Get(d, Field.TripBrief, Dict(map[]));
      var candidatePool := Get(d, Field.CandidatePool, List([]));
      var shortlist := Get(d, Field.Shortlist, List([]));
      var skeletonPlans := Get(d, Field.SkeletonPlans, List([]));
      var selected := Get(d, Field.SelectedSkeletonId, Null);
      var step :- ReadStep(Get(d, Field.Phase2Step, Null), phase.value, dates, tripBrief, candidatePool, shortlist,
                           skeletonPlans, selected, py);
      var excluded :- ReadList(Or(Get(d, Field.ExcludedCandidates, List([])), List([])), ExcludedReader(py), py);
      var travelers :- ReadOptional(Get(d, Field.TravelersField, Null), TravelersFrom);
      var budget :- ReadOptional(Get(d, Field.BudgetField, Null), BudgetFrom);
      var dailyPlans :- ReadList(Get(d, Field.DailyPlans, List([])), DayPlanReader(py), py);
      var constraints :- ReadList(Get(d, Field.Constraints, List([])), ConstraintFrom, py);
      var preferences :- ReadList(Get(d, Field.Preferences, List([])), PreferenceReader(py), py);
      var decisions :- ReadList(Get(d, Field.DecisionEvents, List([])), EventReader(py), py);
      var lessons :- ReadList(Get(d, Field.LessonEvents, List([])), EventReader(py), py);
      var backtracks :- ReadList(Get(d, Field.BacktrackHistory, List([])), BacktrackFrom, py);
      Ok(Plan(
        d[Field.SessionId], Get(d, Field.TripId, Null), phase.value, Get(d, Field.Destination, Null), dates, step,
        tripBrief, candidatePool, shortlist, excluded,
        skeletonPlans, selected, Get(d, Field.TransportOptions, List([])), Get(d, Field.SelectedTransport, Null),
        Get(d, Field.AccommodationOptions, List([])), travelers, budget, accommodation,
        Get(d, Field.Risks, List([])), Get(d, Field.Alternatives, List([])), dailyPlans,
        Get(d, Field.Deliverables, Null),
        constraints, preferences, decisions, lessons,
        backtracks, Get(d, Field.CreatedAt, Str("")), Get(d, Field.LastUpdated, Str("")),
        Max(rawVersion.value, CURRENT_STATE_VERSION)))
  }

  /** `d.get("phase2_step") or infer_phase2_step_from_state(...)` */
  function ReadStep(stored: Value, phase: int, dates: Option<DateRange>, tripBrief: Value, candidatePool: Value,
                    shortlist: Value, skeletonPlans: Value, selected: Value, py: Py): (r: Result<Value>)
    ensures r.Ok? ==> Truthy(r.value)
  {
    if Truthy(stored) then Ok(stored)
    else
      var step :- InferPhase2Step(phase, dates, tripBrief, candidatePool, shortlist, skeletonPlans, selected, py);
      Ok(Str(step))
  }

  // ----- writing

  function WriteOptional<T>(x: Option<T>, write: T -> Value): Value { if x.Some? then write(x.value) else Null }

  function WriteList<T>(xs: seq<T>, write: T -> Value): Value { List(Mapped(write, xs)) }

  function EventTo(m: Record): Value { Dict(m) }

  function PlanTo(s: Plan): Record {
    map[
      Field.SessionId := s.sessionId,
      Field.TripId := s.tripId,
      Field.Phase := Int(s.phase),
      Field.Destination := s.destination,
      Field.Dates := WriteOptional(s.dates, DateRangeTo),
      Field.Phase2Step := s.phase2Step,
      Field.TripBrief := s.tripBrief,
      Field.CandidatePool := s.candidatePool,
      Field.Shortlist := s.shortlist,
      Field.ExcludedCandidates := WriteList(s.excludedCandidates, ExcludedTo),
      Field.SkeletonPlans := s.skeletonPlans,
      Field.SelectedSkeletonId := s.selectedSkeletonId,
      Field.TransportOptions := s.transportOptions,
      Field.SelectedTransport := s.selectedTransport,
      Field.AccommodationOptions := s.accommodationOptions,
      Field.TravelersField := WriteOptional(s.travelers, TravelersTo),
      Field.BudgetField := WriteOptional(s.budget, BudgetTo),
      Field.AccommodationField := WriteOptional(s.accommodation, AccommodationTo),
      Field.Risks := s.risks,
      Field.Alternatives := s.alternatives,
      Field.DailyPlans := WriteList(s.dailyPlans, DayPlanTo),
      Field.Deliverables := s.deliverables,
      Field.Constraints := WriteList(s.constraints, ConstraintTo),
      Field.Preferences := WriteList(s.preferences, PreferenceTo),
      Field.DecisionEvents := WriteList(s.decisionEvents, EventTo),
      Field.LessonEvents := WriteList(s.lessonEvents, EventTo),
      Field.BacktrackHistory := WriteList(s.backtrackHistory, BacktrackTo),
      Field.CreatedAt := s.createdAt,
      Field.LastUpdated := s.lastUpdated,
      Field.Version := Int(CURRENT_STATE_VERSION)]
  }

  // ----- the lists and optional parts

  ghost predicate AreExcluded(xs: seq<ExcludedCandidate>) { forall k | 0 <= k < |xs| :: IsExcluded(xs[k]) }

  ghost predicate AreDayPlans(xs: seq<DayPlan>) { forall k | 0 <= k < |xs| :: AreActivities(xs[k].activities) }

  lemma ExcludedListTrip(xs: seq<ExcludedCandidate>, py: Py)
    requires Lawful(py) && AreExcluded(xs)
    ensures ReadList(Or(WriteList(xs, ExcludedTo), List([])), ExcludedReader(py), py) == Ok(xs)
  {
    forall k | 0 <= k < |xs| ensures ExcludedReader(py)(ExcludedTo(xs[k])) == Ok(xs[k]) {
      ExcludedTrip(Null, xs[k], py);
    }
    ListTrip(ExcludedReader(py), ExcludedTo, xs, xs);
    ListOrEmpty(Mapped(ExcludedTo, xs));
  }

  lemma ListOrEmpty(xs: seq<Value>)
    ensures Or(List(xs), List([])) == List(xs)
  {
  }

  lemma DayPlanListTrip(xs: seq<DayPlan>, py: Py)
    requires Lawful(py) && AreDayPlans(xs)
    ensures ReadList(WriteList(xs, DayPlanTo), DayPlanReader(py), py) == Ok(xs)
  {
    forall k | 0 <= k < |xs| ensures DayPlanReader(py)(DayPlanTo(xs[k])) == Ok(xs[k]) {
      DayPlanTrip(xs[k], py);
    }
    ListTrip(DayPlanReader(py), DayPlanTo, xs, xs);
  }

  function SettledConstraint(c: Constraint): Constraint { c.(source := SettledSource(c.source)) }
  function SettledPreference(p: Preference): Preference { p.(source := SettledSource(p.source)) }

  lemma ConstraintListTrip(xs: seq<Constraint>, py: Py)
    requires Lawful(py)
    ensures ReadList(WriteList(xs, ConstraintTo), ConstraintFrom, py) == Ok(Mapped(SettledConstraint, xs))
  {
    var ys := Mapped(SettledConstraint, xs);
    forall k | 0 <= k < |xs| ensures ConstraintFrom(ConstraintTo(xs[k])) == Ok(ys[k]) {
      ConstraintTrip(xs[k]);
    }
    ListTrip(ConstraintFrom, ConstraintTo, xs, ys);
  }

  lemma PreferenceListTrip(xs: seq<Preference>, py: Py)
    requires Lawful(py)
    ensures ReadList(WriteList(xs, PreferenceTo), PreferenceReader(py), py) == Ok(Mapped(SettledPreference, xs))
  {
    var ys := Mapped(SettledPreference, xs);
    forall k | 0 <= k < |xs| ensures PreferenceReader(py)(PreferenceTo(xs[k])) == Ok(ys[k]) {
      PreferenceTrip(xs[k], py);
    }
    ListTrip(PreferenceReader(py), PreferenceTo, xs, ys);
  }

  lemma EventListTrip(xs: seq<Record>, py: Py)
    requires Lawful(py)
    ensures ReadList(WriteList(xs, EventTo), EventReader(py), py) == Ok(xs)
  {
    ListTrip(EventReader(py), EventTo, xs, xs);
  }

  lemma BacktrackListTrip(xs: seq<BacktrackEvent>, py: Py)
    requires Lawful(py)
    ensures ReadList(WriteList(xs, BacktrackTo), BacktrackFrom, py) == Ok(xs)
  {
    forall k | 0 <= k < |xs| ensures BacktrackFrom(BacktrackTo(xs[k])) == Ok(xs[k]) {
      BacktrackTrip(xs[k]);
    }
    ListTrip(BacktrackFrom, BacktrackTo, xs, xs);
  }

  // ----- the whole plan

  /** What loading establishes. */
  ghost predicate Loaded(s: Plan) {
    && s.phase in SUPPORTED_PHASES
    && Truthy(s.phase2Step)
    && s.version >= CURRENT_STATE_VERSION
    && AreExcluded(s.excludedCandidates)
    && AreDayPlans(s.dailyPlans)
  }

  lemma LoadedPlans(d: Record, s: Plan, py: Py)
    requires Lawful(py) && PlanFrom(d, py) == Ok(s)
    ensures Loaded(s)
  {
    var days := py.iter(Get(d, Field.DailyPlans, List([]))).value;
    forall k | 0 <= k < |s.dailyPlans| ensures AreActivities(s.dailyPlans[k].activities) {
      assert DayPlanReader(py)(days[k]) == Ok(s.dailyPlans[k]);
      DayPlanRead(days[k], py);
    }
    var out := py.iter(Or(Get(d, Field.ExcludedCandidates, List([])), List([]))).value;
    forall k | 0 <= k < |s.excludedCandidates| ensures IsExcluded(s.excludedCandidates[k]) {
      assert ExcludedReader(py)(out[k]) == Ok(s.excludedCandidates[k]);
      ExcludedTrip(out[k], s.excludedCandidates[k], py);
    }
  }

  /** The entries of a written plan that are taken over as they are. */
  ghost predicate HoldsScalars(d: Record, s: Plan) {
    && Field.SessionId in d && d[Field.SessionId] == s.sessionId
    && Get(d, Field.TripId, Null) == s.tripId
    && Get(d, Field.Phase, Int(1)) == Int(s.phase)
    && Get(d, Field.Destination, Null) == s.destination
    && Get(d, Field.Phase2Step, Null) == s.phase2Step
    && Get(d, Field.TripBrief, Dict(map[])) == s.tripBrief
    && Get(d, Field.CandidatePool, List([])) == s.candidatePool
    && Get(d, Field.Shortlist, List([])) == s.shortlist
    && Get(d, Field.SkeletonPlans, List([])) == s.skeletonPlans
    && Get(d, Field.SelectedSkeletonId, Null) == s.selectedSkeletonId
    && Get(d, Field.TransportOptions, List([])) == s.transportOptions
    && Get(d, Field.SelectedTransport, Null) == s.selectedTransport
    && Get(d, Field.AccommodationOptions, List([])) == s.accommodationOptions
    && Get(d, Field.Risks, List([])) == s.risks
    && Get(d, Field.Alternatives, List([])) == s.alternatives
    && Get(d, Field.Deliverables, Null) == s.deliverables
    && Get(d, Field.CreatedAt, Str("")) == s.createdAt
    && Get(d, Field.LastUpdated, Str("")) == s.lastUpdated
    && Get(d, Field.Version, Int(1)) == Int(CURRENT_STATE_VERSION)
  }

  /** The entries that the reader rebuilds. */
  ghost predicate HoldsParts(d: Record, s: Plan) {
    && Get(d, Field.Dates, Null) == WriteOptional(s.dates, DateRangeTo)
    && Get(d, Field.TravelersField, Null) == WriteOptional(s.travelers, TravelersTo)
    && Get(d, Field.BudgetField, Null) == WriteOptional(s.budget, BudgetTo)
    && Get(d, Field.AccommodationField, Null) == WriteOptional(s.accommodation, AccommodationTo)
    && Get(d, Field.ExcludedCandidates, List([])) == WriteList(s.excludedCandidates, ExcludedTo)
    && Get(d, Field.DailyPlans, List([])) == WriteList(s.dailyPlans, DayPlanTo)
    && Get(d, Field.Constraints, List([])) == WriteList(s.constraints, ConstraintTo)
    && Get(d, Field.Preferences, List([])) == WriteList(s.preferences, PreferenceTo)
    && Get(d, Field.DecisionEvents, List([])) == WriteList(s.decisionEvents, EventTo)
    && Get(d, Field.LessonEvents, List([])) == WriteList(s.lessonEvents, EventTo)
    && Get(d, Field.BacktrackHistory, List([])) == WriteList(s.backtrackHistory, BacktrackTo)
  }

  lemma IdentityEntries(s: Plan, d: Record)
    requires PlanTo(s) == d
    ensures Field.SessionId in d && d[Field.SessionId] == s.sessionId
    ensures Get(d, Field.TripId, Null) == s.tripId
    ensures Get(d, Field.Phase, Int(1)) == Int(s.phase)
    ensures Get(d, Field.Destination, Null) == s.destination
  {
  }

  lemma ResearchEntries(s: Plan, d: Record)
    requires PlanTo(s) == d
    ensures Get(d, Field.Phase2Step, Null) == s.phase2Step
    ensures Get(d, Field.TripBrief, Dict(map[])) == s.tripBrief
    ensures Get(d, Field.CandidatePool, List([])) == s.candidatePool
  {
  }

  lemma Phase2Entries(s: Plan, d: Record)
    requires PlanTo(s) == d
    ensures Get(d, Field.Shortlist, List([])) == s.shortlist
    ensures Get(d, Field.SkeletonPlans, List([])) == s.skeletonPlans
    ensures Get(d, Field.SelectedSkeletonId, Null) == s.selectedSkeletonId
    ensures Get(d, Field.TransportOptions, List([])) == s.transportOptions
    ensures Get(d, Field.SelectedTransport, Null) == s.selectedTransport
    ensures Get(d, Field.AccommodationOptions, List([])) == s.accommodationOptions
  {
  }

  lemma RemainingEntries(s: Plan, d: Record)
    requires PlanTo(s) == d
    ensures Get(d, Field.Risks, List([])) == s.risks
    ensures Get(d, Field.Alternatives, List([])) == s.alternatives
    ensures Get(d, Field.Deliverables, Null) == s.deliverables
    ensures Get(d, Field.CreatedAt, Str("")) == s.createdAt
    ensures Get(d, Field.LastUpdated, Str("")) == s.lastUpdated
    ensures Get(d, Field.Version, Int(1)) == Int(CURRENT_STATE_VERSION)
  {
  }

  lemma OptionalEntries(s: Plan, d: Record)
    requires PlanTo(s) == d
    ensures Get(d, Field.Dates, Null) == WriteOptional(s.dates, DateRangeTo)
    ensures Get(d, Field.TravelersField, Null) == WriteOptional(s.travelers, TravelersTo)
    ensures Get(d, Field.BudgetField, Null) == WriteOptional(s.budget, BudgetTo)
    ensures Get(d, Field.AccommodationField, Null) == WriteOptional(s.accommodation, AccommodationTo)
    ensures Get(d, Field.ExcludedCandidates, List([])) == WriteList(s.excludedCandidates, ExcludedTo)
  {
  }

  lemma ListEntries(s: Plan, d: Record)
    requires PlanTo(s) == d
    ensures Get(d, Field.DailyPlans, List([])) == WriteList(s.dailyPlans, DayPlanTo)
    ensures Get(d, Field.Constraints, List([])) == WriteList(s.constraints, ConstraintTo)
    ensures Get(d, Field.Preferences, List([])) == WriteList(s.preferences, PreferenceTo)
    ensures Get(d, Field.DecisionEvents, List([])) == WriteList(s.decisionEvents, EventTo)
    ensures Get(d, Field.LessonEvents, List([])) == WriteList(s.lessonEvents, EventTo)
    ensures Get(d, Field.BacktrackHistory, List([])) == WriteList(s.backtrackHistory, BacktrackTo)
  {
  }

  lemma PlanEntries(s: Plan, d: Record)
    requires PlanTo(s) == d
    ensures HoldsScalars(d, s) && HoldsParts(d, s)
  {
    IdentityEntries(s, d);
    ResearchEntries(s, d);
    Phase2Entries(s, d);
    RemainingEntries(s, d);
    OptionalEntries(s, d);
    ListEntries(s, d);
  }

  /** The optional parts read from `d` are those of the plan. */
  ghost predicate ReadsOptionals(d: Record, s: Plan) {
    && ReadOptional(Get(d, Field.Dates, Null), DateRangeFrom) == Ok(s.dates)
    && ReadOptional(Get(d, Field.TravelersField, Null), TravelersFrom) == Ok(s.travelers)
    && ReadOptional(Get(d, Field.BudgetField, Null), BudgetFrom) == Ok(s.budget)
    && ReadOptional(Get(d, Field.AccommodationField, Null), AccommodationFrom) == Ok(s.accommodation)
  }

  lemma OptionalPartsTrip(s: Plan, d: Record)
    requires HoldsParts(d, s)
    ensures ReadsOptionals(d, s)
  {
    if s.dates.Some? { DateRangeTrip(s.dates.value); }
    if s.travelers.Some? { TravelersTrip(s.travelers.value); }
    if s.budget.Some? { BudgetTrip(s.budget.value); }
    if s.accommodation.Some? { AccommodationTrip(s.accommodation.value); }
  }

  /** What a plan becomes by one save and load. */
  function Settled(s: Plan): Plan {
    s.(version := CURRENT_STATE_VERSION,
       constraints := Mapped(SettledConstraint, s.constraints),
       preferences := Mapped(SettledPreference, s.preferences))
  }

  /** The lists read from `d` are those of the settled plan. */
  ghost predicate ReadsLists(d: Record, s: Plan, py: Py) {
    && ReadList(Or(Get(d, Field.ExcludedCandidates, List([])), List([])), ExcludedReader(py), py)
       == Ok(s.excludedCandidates)
    && ReadList(Get(d, Field.DailyPlans, List([])), DayPlanReader(py), py) == Ok(s.dailyPlans)
    && ReadList(Get(d, Field.Constraints, List([])), ConstraintFrom, py) == Ok(s.constraints)
    && ReadList(Get(d, Field.Preferences, List([])), PreferenceReader(py), py) == Ok(s.preferences)
    && ReadList(Get(d, Field.DecisionEvents, List([])), EventReader(py), py) == Ok(s.decisionEvents)
    && ReadList(Get(d, Field.LessonEvents, List([])), EventReader(py), py) == Ok(s.lessonEvents)
    && ReadList(Get(d, Field.BacktrackHistory, List([])), BacktrackFrom, py) == Ok(s.backtrackHistory)
  }

  lemma ListPartsTrip(s: Plan, d: Record, py: Py)
    requires Lawful(py) && Loaded(s) && HoldsParts(d, s)
    ensures ReadsLists(d, Settled(s), py)
  {
    ExcludedListTrip(s.excludedCandidates, py);
    DayPlanListTrip(s.dailyPlans, py);
    ConstraintListTrip(s.constraints, py);
    PreferenceListTrip(s.preferences, py);
    EventListTrip(s.decisionEvents, py);
    EventListTrip(s.lessonEvents, py);
    BacktrackListTrip(s.backtrackHistory, py);
  }

  lemma AssemblePlan(d: Record, s: Plan, py: Py)
    requires s.phase in SUPPORTED_PHASES && Truthy(s.phase2Step) && s.version == CURRENT_STATE_VERSION
    requires py.int_(Int(s.phase)) == Some(s.phase) && py.int_(Int(s.version)) == Some(s.version)
    requires HoldsScalars(d, s) && ReadsOptionals(d, s) && ReadsLists(d, s, py)
    ensures PlanFrom(d, py) == Ok(s)
  {
  }

  lemma SettledTrip(s: Plan, d: Record, py: Py)
    requires Lawful(py) && Loaded(s)
    requires HoldsScalars(d, s) && HoldsParts(d, s)
    ensures PlanFrom(d, py) == Ok(Settled(s))
  {
    OptionalPartsTrip(s, d);
    ListPartsTrip(s, d, py);
    AssemblePlan(d, Settled(s), py);
  }

  ghost predicate StableSources(s: Plan) {
    && (forall k | 0 <= k < |s.constraints| :: StableSource(s.constraints[k].source))
    && (forall k | 0 <= k < |s.preferences| :: StableSource(s.preferences[k].source))
  }

  lemma SettledIsIdentity(s: Plan)
    ensures Settled(s) == s.(version := CURRENT_STATE_VERSION) <==> StableSources(s)
    ensures StableSources(Settled(s))
  {
    var cs, ps := Mapped(SettledConstraint, s.constraints), Mapped(SettledPreference, s.preferences);
    if StableSources(s) {
      assert cs == s.constraints;
      assert ps == s.preferences;
    }
    if cs == s.constraints {
      forall k | 0 <= k < |s.constraints| ensures StableSource(s.constraints[k].source) {
        assert cs[k] == SettledConstraint(s.constraints[k]);
      }
    }
    if ps == s.preferences {
      forall k | 0 <= k < |s.preferences| ensures StableSource(s.preferences[k].source) {
        assert ps[k] == SettledPreference(s.preferences[k]);
      }
    }
  }

  /** Saving and loading a loaded plan gives it back up to `version` exactly when no constraint or
      preference carries a falsy source other than the empty text. Whatever was lost is lost
      in the first trip: later ones change nothing. */
  lemma StateRoundTrip(d: Record, s: Plan, py: Py)
    requires Lawful(py) && PlanFrom(d, py) == Ok(s)
    ensures PlanFrom(PlanTo(s), py) == Ok(Settled(s))
    ensures PlanFrom(PlanTo(s), py) == Ok(s.(version := CURRENT_STATE_VERSION)) <==> StableSources(s)
    ensures PlanFrom(PlanTo(Settled(s)), py) == Ok(Settled(s))
  {
    LoadedPlans(d, s, py);
    PlanEntries(s, PlanTo(s));
    SettledTrip(s, PlanTo(s), py);
    SettledIsIdentity(s);
    var t := Settled(s);
    PlanEntries(t, PlanTo(t));
    SettledTrip(t, PlanTo(t), py);
    SettledIsIdentity(t);
  }

  /** A constraint stored with `"source": null` comes back with the empty text. */
  lemma NullSourceIsLost(py: Py)
    requires Lawful(py)
    ensures var c := Constraint(Str("hard"), Str("no flights"), Null);
      ConstraintFrom(Dict(map[Field.Type := c.type_, Field.Description := c.description, Field.Source := Null]))
        == Ok(c)
      && ConstraintFrom(ConstraintTo(c)) == Ok(c.(source := Str("")))
  {
    ConstraintTrip(Constraint(Str("hard"), Str("no flights"), Null));
  }
}
