/** The writes that tools make to a plan. */
module PlanWriters {
  import opened Basics
  import opened Ordering
  import opened PyValues
  import opened StateModels
  import opened StateCodec
  import opened PlanCodec
  import opened TravelPlan
  import opened PhaseRouter

  function DecisionEvent(category: string, value: Value, reason: string): Record {
    map[Field.Type := Str("accepted"), Field.Category := Str(category), Field.Val := value,
        Field.Reason := Str(reason), Field.Timestamp := Str("")]
  }

  function WithDecision(p: Plan, category: string, value: Value, reason: string): Plan {
    p.(decisionEvents := p.decisionEvents + [DecisionEvent(category, value, reason)])
  }

  // ----- single-field writes

  /** Values are as the tools' parsers leave them: `Dates`, `Travelers` and `Budget` already parsed, preferences
      and constraints already built. */
  datatype FieldWrite =
    | SkeletonPlansWrite(plans: seq<Value>)
    | SelectSkeleton(id: string)
    | DeselectSkeleton
    | CandidatePoolWrite(pool: seq<Value>)
    | ShortlistWrite(items: seq<Value>)
    | ExcludedWrite(excluded: seq<Value>)
    | TransportOptionsWrite(options: seq<Value>)
    | SelectTransport(choice: Record)
    | AccommodationOptionsWrite(stays: seq<Value>)
    | SelectAccommodation(area: string, hotel: Value)
    | RisksWrite(risks: seq<Value>)
    | AlternativesWrite(alternatives: seq<Value>)
    | TripBriefWrite(fields: Record)
    | DestinationWrite(destination: Value)
    | DatesWrite(dates: Option<DateRange>)
    | TravelersWrite(travelers: Option<Travelers>)
    | BudgetWrite(budget: Option<Budget>)
    | DepartureCityWrite(city: Value)
    | PreferencesAppend(preferences: seq<Preference>)
    | ConstraintsAppend(constraints: seq<Constraint>)
    | LessonAppend(kind: string, note: string, now: string)

  /** The fields as given, with a recognisable pace under its canonical name. */
  function NormalizedFields(fields: Record, py: Py): Record {
    if Field.Pace in fields && py.pace(fields[Field.Pace]).Some? then
      fields[Field.Pace := Str(py.pace(fields[Field.Pace]).value)]
    else fields
  }

  function CityName(value: Value, py: Py): string {
    if value.Dict? then
      var city := Or(Or(Or(Get(value.m, Field.Name, Null), Get(value.m, Field.City, Null)),
                        Get(value.m, Field.DepartureCity, Null)), Get(value.m, Field.From, Null));
      py.str(Or(city, value))
    else py.str(value)
  }

  /** The plan after a single-field write. */
  function FieldWritten(p: Plan, w: FieldWrite, py: Py): Plan
    requires TypesHold(p)
  {
    match w
    case SkeletonPlansWrite(plans) => p.(skeletonPlans := List(plans))
    case SelectSkeleton(id) =>
      WithDecision(p.(selectedSkeletonId := Str(id)), "skeleton", Dict(map[Field.Id := Str(id)]),
                   "selected_skeleton_id updated in plan state")
    case DeselectSkeleton => p.(selectedSkeletonId := Null)
    case CandidatePoolWrite(pool) => p.(candidatePool := List(pool))
    case ShortlistWrite(items) => p.(shortlist := List(items))
    case ExcludedWrite(items) => p.(excludedCandidates := Mapped(v => ExcludedFrom(v, py), items))
    case TransportOptionsWrite(options) => p.(transportOptions := List(options))
    case SelectTransport(choice) =>
      WithDecision(p.(selectedTransport := Dict(choice)), "transport", Dict(choice),
                   "selected_transport updated in plan state")
    case AccommodationOptionsWrite(stays) => p.(accommodationOptions := List(stays))
    case SelectAccommodation(area, hotel) =>
      var chosen := Accommodation.Accommodation(Str(area), hotel);
      WithDecision(p.(accommodation := Some(chosen)), "accommodation", AccommodationTo(chosen),
                   "accommodation updated in plan state")
    case RisksWrite(risks) => p.(risks := List(risks))
    case AlternativesWrite(alternatives) => p.(alternatives := List(alternatives))
    case TripBriefWrite(fields) => p.(tripBrief := Dict(p.tripBrief.m + NormalizedFields(fields, py)))
    case DestinationWrite(value) =>
      p.(destination := Str(py.str(if value.Dict? then Get(value.m, Field.Name, value) else value)))
    case DatesWrite(dates) => p.(dates := dates)
    case TravelersWrite(travelers) => p.(travelers := travelers)
    case BudgetWrite(budget) => p.(budget := budget)
    case DepartureCityWrite(city) =>
      p.(tripBrief := Dict(p.tripBrief.m[Field.DepartureCity := Str(CityName(city, py))]))
    case PreferencesAppend(preferences) => p.(preferences := p.preferences + preferences)
    case ConstraintsAppend(constraints) => p.(constraints := p.constraints + constraints)
    case LessonAppend(kind, note, now) =>
      p.(lessonEvents := p.lessonEvents +
         [map[Field.Kind := Str(kind), Field.Content := Str(note), Field.Timestamp := Str(now)]])
  }

  predicate Records(w: FieldWrite) { w.SelectSkeleton? || w.SelectTransport? || w.SelectAccommodation? }

  /** No single-field write touches the phase, the days or the backtracks, or breaks the declared types; the
      three selections, and no others, leave a decision event. */
  lemma FieldWritesKeep(p: Plan, w: FieldWrite, py: Py)
    requires TypesHold(p)
    ensures var q := FieldWritten(p, w, py);
      && TypesHold(q) && q.phase == p.phase && q.dailyPlans == p.dailyPlans && q.backtrackHistory == p.backtrackHistory
      && p.decisionEvents <= q.decisionEvents && |q.decisionEvents| == |p.decisionEvents| + if Records(w) then 1 else 0
  {
  }

  /** q is p with one more decision on record, of that category, about that value and for that reason. */
  ghost predicate Decided(q: Plan, p: Plan, category: string, value: Value, reason: string) {
    && |q.decisionEvents| == |p.decisionEvents| + 1
    && q.decisionEvents[..|p.decisionEvents|] == p.decisionEvents
    && var e := q.decisionEvents[|p.decisionEvents|];
       && e.Keys == {Field.Type, Field.Category, Field.Val, Field.Reason, Field.Timestamp}
       && e[Field.Type] == Str("accepted") && e[Field.Category] == Str(category) && e[Field.Val] == value
       && e[Field.Reason] == Str(reason) && e[Field.Timestamp] == Str("")
  }

  /** Each write sets its own field, to its own value, and putting that field back gives the old plan. */
  lemma FieldWriteSets(p: Plan, w: FieldWrite, py: Py)
    requires TypesHold(p)
    ensures var q := FieldWritten(p, w, py);
      match w
      case SkeletonPlansWrite(plans) =>
        q.skeletonPlans == List(plans) && q.(skeletonPlans := p.skeletonPlans) == p
      case SelectSkeleton(id) =>
        && q.selectedSkeletonId == Str(id)
        && Decided(q, p, "skeleton", Dict(map[Field.Id := Str(id)]), "selected_skeleton_id updated in plan state")
        && q.(selectedSkeletonId := p.selectedSkeletonId, decisionEvents := p.decisionEvents) == p
      case DeselectSkeleton =>
        q.selectedSkeletonId == Null && q.(selectedSkeletonId := p.selectedSkeletonId) == p
      case CandidatePoolWrite(pool) => q.candidatePool == List(pool) && q.(candidatePool := p.candidatePool) == p
      case ShortlistWrite(items) => q.shortlist == List(items) && q.(shortlist := p.shortlist) == p
      case ExcludedWrite(items) =>
        && |q.excludedCandidates| == |items|
        && (forall i | 0 <= i < |items| :: q.excludedCandidates[i] == ExcludedFrom(items[i], py))
        && q.(excludedCandidates := p.excludedCandidates) == p
      case TransportOptionsWrite(options) =>
        q.transportOptions == List(options) && q.(transportOptions := p.transportOptions) == p
      case SelectTransport(choice) =>
        && q.selectedTransport == Dict(choice)
        && Decided(q, p, "transport", Dict(choice), "selected_transport updated in plan state")
        && q.(selectedTransport := p.selectedTransport, decisionEvents := p.decisionEvents) == p
      case AccommodationOptionsWrite(stays) =>
        q.accommodationOptions == List(stays) && q.(accommodationOptions := p.accommodationOptions) == p
      case SelectAccommodation(area, hotel) =>
        && q.accommodation.Some? && q.accommodation.value.area == Str(area) && q.accommodation.value.hotel == hotel
        && Decided(q, p, "accommodation", AccommodationTo(q.accommodation.value),
                   "accommodation updated in plan state")
        && q.(accommodation := p.accommodation, decisionEvents := p.decisionEvents) == p
      case RisksWrite(risks) => q.risks == List(risks) && q.(risks := p.risks) == p
      case AlternativesWrite(alternatives) =>
        q.alternatives == List(alternatives) && q.(alternatives := p.alternatives) == p
      case TripBriefWrite(_) => q.(tripBrief := p.tripBrief) == p
      case DestinationWrite(value) =>
        && (!value.Dict? ==> q.destination == Str(py.str(value)))
        && (value.Dict? && Field.Name in value.m ==> q.destination == Str(py.str(value.m[Field.Name])))
        && (value.Dict? && Field.Name !in value.m ==> q.destination == Str(py.str(value)))
        && q.(destination := p.destination) == p
      case DatesWrite(dates) => q.dates == dates && q.(dates := p.dates) == p
      case TravelersWrite(travelers) => q.travelers == travelers && q.(travelers := p.travelers) == p
      case BudgetWrite(budget) => q.budget == budget && q.(budget := p.budget) == p
      case DepartureCityWrite(city) =>
        && q.tripBrief.Dict? && Field.DepartureCity in q.tripBrief.m
        && q.tripBrief.m - {Field.DepartureCity} == p.tripBrief.m - {Field.DepartureCity}
        && (!city.Dict? ==> q.tripBrief.m[Field.DepartureCity] == Str(py.str(city)))
        && (city.Dict? && Field.Name in city.m && Truthy(city.m[Field.Name]) ==>
              q.tripBrief.m[Field.DepartureCity] == Str(py.str(city.m[Field.Name])))
        && q.(tripBrief := p.tripBrief) == p
      case PreferencesAppend(preferences) =>
        q.preferences == p.preferences + preferences && q.(preferences := p.preferences) == p
      case ConstraintsAppend(constraints) =>
        q.constraints == p.constraints + constraints && q.(constraints := p.constraints) == p
      case LessonAppend(kind, note, now) =>
        && q.lessonEvents == p.lessonEvents
             + [map[Field.Kind := Str(kind), Field.Content := Str(note), Field.Timestamp := Str(now)]]
        && q.(lessonEvents := p.lessonEvents) == p
  {
    match w
    case ExcludedWrite(items) =>
    case DepartureCityWrite(city) =>
      assert (p.tripBrief.m[Field.DepartureCity := Str(CityName(city, py))]) - {Field.DepartureCity}
          == p.tripBrief.m - {Field.DepartureCity};
    case _ =>
  }

  /** Writing fields into the brief overrides those entries and no others; a recognisable pace is stored
      under its canonical name. */
  lemma BriefWriteMerges(p: Plan, fields: Record, key: Field, py: Py)
    requires TypesHold(p)
    ensures var before, after := p.tripBrief.m, FieldWritten(p, TripBriefWrite(fields), py).tripBrief;
      && after.Dict?
      && (key in after.m <==> key in before || key in fields)
      && (key !in fields && key in before ==> after.m[key] == before[key])
      && (key in fields ==> after.m[key] == CanonicalEntry(key, fields[key], py))
  {
    var normalized := NormalizedFields(fields, py);
    assert key in normalized <==> key in fields;
    assert key in fields ==> normalized[key] == CanonicalEntry(key, fields[key], py);
  }

  function CanonicalEntry(key: Field, value: Value, py: Py): Value {
    if key == Field.Pace && py.pace(value).Some? then Str(py.pace(value).value) else value
  }

  /** The writes inference looks at. */
  predicate MovesPhase(w: FieldWrite) {
    || w.DestinationWrite? || w.DatesWrite? || w.SkeletonPlansWrite? || w.SelectSkeleton? || w.DeselectSkeleton?
    || w.SelectAccommodation?
  }

  /** No other single-field write moves the plan to another phase. */
  lemma OtherWritesKeepInference(p: Plan, w: FieldWrite, py: Py)
    requires TypesHold(p) && !MovesPhase(w)
    ensures TypesHold(FieldWritten(p, w, py))
    ensures InferredPhase(FieldWritten(p, w, py), py) == InferredPhase(p, py)
  {
    var q := FieldWritten(p, w, py);
    InferenceDependsOn(p, q, py);
  }

  // ----- the days

  predicate DayLe(a: DayPlan, b: DayPlan) { a.day <= b.day }

  lemma DayLeIsPreorder()
    ensures TotalPreorder(DayLe)
  {
  }

  /** Python's `existing.day == value`: numbers of any kind compare by amount, other values never equal a number. */
  predicate SameNumber(n: int, v: Value) {
    match v
    case Int(k) => n == k
    case Float(r) => n as real == r
    case Bool(b) => n == if b then 1 else 0
    case _ => false
  }

  function AppendedDay(p: Plan, day: Record, py: Py): Result<Plan> {
    var d :- DayPlanFrom(Dict(day), py);
    Ok(p.(dailyPlans := SortBy(p.dailyPlans + [d], DayLe)))
  }

  function DayNumber(d: DayPlan): Value { Int(d.day) }

  function ReplacedDays(p: Plan, days: seq<Value>, py: Py): Result<Plan> {
    var read :- TryMapped(DayPlanReader(py), days);
    var sorted := SortBy(read, DayLe);
    Ok(WithDecision(p.(dailyPlans := sorted), "daily_plan", Dict(map[Field.Days := List(Mapped(DayNumber, sorted))]),
                    "daily_plans replaced in plan state"))
  }

  function ReplaceIn(days: seq<DayPlan>, number: Value, d: DayPlan): (r: seq<DayPlan>)
    ensures |r| == |days|
    ensures forall i | 0 <= i < |r| :: r[i] == if SameNumber(days[i].day, number) then d else days[i]
  {
    Mapped((e: DayPlan) => if SameNumber(e.day, number) then d else e, days)
  }

  /** Without a `day` entry, or with a day that does not convert where one matches, the write fails. */
  function ReplacedDay(p: Plan, day: Record, py: Py): Result<Plan> {
    if Field.Day !in day then Err
    else if forall e | e in p.dailyPlans :: !SameNumber(e.day, day[Field.Day]) then
      Ok(p.(dailyPlans := SortBy(p.dailyPlans, DayLe)))
    else
      var d :- DayPlanFrom(Dict(day), py);
      Ok(p.(dailyPlans := SortBy(ReplaceIn(p.dailyPlans, day[Field.Day], d), DayLe)))
  }

  method AppendOneDayPlan(state: TravelPlanState, day: Record, py: Py) returns (ok: bool)
    modifies state
    ensures ok <==> AppendedDay(old(state.plan), day, py).Ok?
    ensures state.plan == if ok then AppendedDay(old(state.plan), day, py).value else old(state.plan)
  {
    var d := DayPlanFrom(Dict(day), py);
    if d.Err? { return false; }
    state.plan := state.plan.(dailyPlans := state.plan.dailyPlans + [d.value]);
    SortDailyPlans(state);
    return true;
  }

  /** The days get into the order of their numbers, those of one number in their old order; nothing else changes. */
  method SortDailyPlans(state: TravelPlanState)
    modifies state
    ensures Sorted(state.plan.dailyPlans, DayLe)
    ensures multiset(state.plan.dailyPlans) == multiset(old(state.plan).dailyPlans)
    ensures forall day ::
              Keep(state.plan.dailyPlans, Ties(day, DayLe)) == Keep(old(state.plan).dailyPlans, Ties(day, DayLe))
    ensures state.plan == old(state.plan).(dailyPlans := SortBy(old(state.plan).dailyPlans, DayLe))
  {
    DayLeIsPreorder();
    SortBySorted(state.plan.dailyPlans, DayLe);
    forall day { SortByStable(state.plan.dailyPlans, day, DayLe); }
    state.plan := state.plan.(dailyPlans := SortBy(state.plan.dailyPlans, DayLe));
  }

  method ReplaceAllDailyPlans(state: TravelPlanState, days: seq<Value>, py: Py) returns (ok: bool)
    modifies state
    ensures ok <==> ReplacedDays(old(state.plan), days, py).Ok?
    ensures state.plan == if ok then ReplacedDays(old(state.plan), days, py).value else old(state.plan)
  {
    var read := TryMapped(DayPlanReader(py), days);
    if read.Err? { return false; }
    state.plan := state.plan.(dailyPlans := read.value);
    SortDailyPlans(state);
    state.plan :=
      WithDecision(state.plan, "daily_plan", Dict(map[Field.Days := List(Mapped(DayNumber, state.plan.dailyPlans))]),
                               "daily_plans replaced in plan state");
    return true;
  }

  method ReplaceOneDayPlan(state: TravelPlanState, day: Record, py: Py) returns (ok: bool)
    modifies state
    ensures ok <==> ReplacedDay(old(state.plan), day, py).Ok?
    ensures state.plan == if ok then ReplacedDay(old(state.plan), day, py).value else old(state.plan)
  {
    if Field.Day !in day { return false; }
    var number := day[Field.Day];
    var before, after := state.plan.dailyPlans, [];
    for i := 0 to |before|
      invariant |after| == i
      invariant state.plan == old(state.plan)
      invariant forall j | 0 <= j < i :: SameNumber(before[j].day, number) ==> DayPlanFrom(Dict(day), py).Ok?
      invariant forall j | 0 <= j < i ::
        after[j] == if SameNumber(before[j].day, number) then DayPlanFrom(Dict(day), py).value else before[j]
    {
      if SameNumber(before[i].day, number) {
        var d := DayPlanFrom(Dict(day), py);
        if d.Err? { assert before[i] in before; return false; }
        after := after + [d.value];
      } else {
        after := after + [before[i]];
      }
    }
    if forall e | e in before :: !SameNumber(e.day, number) {
      assert after == before;
    } else {
      assert after == ReplaceIn(before, number, DayPlanFrom(Dict(day), py).value);
    }
    state.plan := state.plan.(dailyPlans := after);
    SortDailyPlans(state);
    return true;
  }

  /** `int` of a number of any kind is that number. */
  ghost predicate IntKeepsNumbers(py: Py) {
    forall n, v :: SameNumber(n, v) ==> py.int_(v) == Some(n)
  }

  /** Replacing a day of a sorted itinerary happens in place: the day numbers and every other day stay. */
  lemma ReplaceDayInPlace(p: Plan, day: Record, q: Plan, py: Py)
    requires Sorted(p.dailyPlans, DayLe) && IntKeepsNumbers(py)
    requires ReplacedDay(p, day, py) == Ok(q)
    ensures q == p.(dailyPlans := q.dailyPlans) && |q.dailyPlans| == |p.dailyPlans|
    ensures forall i | 0 <= i < |p.dailyPlans| ::
      && q.dailyPlans[i].day == p.dailyPlans[i].day
      && q.dailyPlans[i] ==
         if SameNumber(p.dailyPlans[i].day, day[Field.Day]) then DayPlanFrom(Dict(day), py).value
         else p.dailyPlans[i]
  {
    DayLeIsPreorder();
    if forall e | e in p.dailyPlans :: !SameNumber(e.day, day[Field.Day]) {
      SortByOfSorted(p.dailyPlans, DayLe);
      assert forall i | 0 <= i < |p.dailyPlans| :: p.dailyPlans[i] in p.dailyPlans;
    } else {
      var d := DayPlanFrom(Dict(day), py).value;
      var after := ReplaceIn(p.dailyPlans, day[Field.Day], d);
      assert Get(day, Field.Day, Int(0)) == day[Field.Day];
      assert forall i | 0 <= i < |after| :: after[i].day == p.dailyPlans[i].day;
      SortByOfSorted(after, DayLe);
    }
  }

  /** Replacing all days leaves the days read, sorted. */
  lemma ReplacesAll(p: Plan, days: seq<Value>, q: Plan, py: Py) returns (read: seq<DayPlan>)
    requires ReplacedDays(p, days, py) == Ok(q)
    ensures |read| == |days| && forall i | 0 <= i < |days| :: DayPlanFrom(days[i], py) == Ok(read[i])
    ensures Sorted(q.dailyPlans, DayLe) && multiset(q.dailyPlans) == multiset(read)
  {
    read := TryMapped(DayPlanReader(py), days).value;
    DayLeIsPreorder();
    SortBySorted(read, DayLe);
    forall i | 0 <= i < |days| ensures DayPlanFrom(days[i], py) == Ok(read[i]) {
      assert DayPlanReader(py)(days[i]) == Ok(read[i]);
    }
  }

  /** It puts on record which numbers they have, and changes nothing else. */
  lemma ReplacementNoted(p: Plan, days: seq<Value>, q: Plan, py: Py) returns (numbers: seq<Value>)
    requires ReplacedDays(p, days, py) == Ok(q)
    ensures |numbers| == |q.dailyPlans| && forall i | 0 <= i < |numbers| :: numbers[i] == Int(q.dailyPlans[i].day)
    ensures Decided(q, p, "daily_plan", Dict(map[Field.Days := List(numbers)]), "daily_plans replaced in plan state")
    ensures q.(dailyPlans := p.dailyPlans, decisionEvents := p.decisionEvents) == p
  {
    numbers := Mapped(DayNumber, q.dailyPlans);
    NoteDecides(p.(dailyPlans := q.dailyPlans), "daily_plan", Dict(map[Field.Days := List(numbers)]),
                "daily_plans replaced in plan state");
  }

  lemma NoteDecides(p: Plan, category: string, value: Value, reason: string)
    ensures Decided(WithDecision(p, category, value, reason), p, category, value, reason)
  {
  }

  /** A day written under a number takes the place of exactly the days of that number, whichever kind of number it is;
      under anything else it takes no place. */
  lemma ReplacesNumber(p: Plan, day: Record, q: Plan, i: nat, py: Py)
    requires Sorted(p.dailyPlans, DayLe) && IntKeepsNumbers(py)
    requires Field.Day in day && ReplacedDay(p, day, py) == Ok(q) && i < |p.dailyPlans|
    ensures |q.dailyPlans| == |p.dailyPlans|
    ensures var was, now := p.dailyPlans[i], q.dailyPlans[i];
      match day[Field.Day]
      case Int(k) => if was.day == k then Ok(now) == DayPlanFrom(Dict(day), py) else now == was
      case Float(r) => if was.day as real == r then Ok(now) == DayPlanFrom(Dict(day), py) else now == was
      case Bool(b) =>
        if was.day == (if b then 1 else 0) then Ok(now) == DayPlanFrom(Dict(day), py) else now == was
      case _ => now == was
  {
    ReplaceDayInPlace(p, day, q, py);
    assert p.dailyPlans[i] in p.dailyPlans;
  }

  /** An appended day joins the others, which keep their order, in the place its number gives it. */
  lemma AppendDayInPlace(p: Plan, day: Record, q: Plan, py: Py)
    requires AppendedDay(p, day, py) == Ok(q)
    ensures var d := DayPlanFrom(Dict(day), py).value;
      && q == p.(dailyPlans := q.dailyPlans)
      && Sorted(q.dailyPlans, DayLe)
      && multiset(q.dailyPlans) == multiset(p.dailyPlans) + multiset{d}
      && forall other :: Keep(q.dailyPlans, Ties(other, DayLe)) == Keep(p.dailyPlans + [d], Ties(other, DayLe))
  {
    DayLeIsPreorder();
    var all := p.dailyPlans + [DayPlanFrom(Dict(day), py).value];
    SortBySorted(all, DayLe);
    forall other ensures Keep(q.dailyPlans, Ties(other, DayLe)) == Keep(all, Ties(other, DayLe)) {
      SortByStable(all, other, DayLe);
    }
  }
}
