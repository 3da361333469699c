/** The phase of a plan, derived from how complete it is: synchronisation, inference, the
    transition check and the backtrack. */
module PhaseRouter {
  import opened Basics
  import opened PyValues
  import opened StateModels
  import opened StateCodec
  import opened TravelPlan

  // ----- what the router relies on

  /** The types of the two fields the router looks into, which loading does not check: the brief is a dictionary,
      and the skeletons a list, or anything falsy, such as null. */
  predicate TypesHold(p: Plan) {
    p.tripBrief.Dict? && (p.skeletonPlans.List? || !Truthy(p.skeletonPlans))
  }

  function Skeletons(p: Plan): seq<Value> {
    if p.skeletonPlans.List? then p.skeletonPlans.xs else []
  }

  // ----- the trip brief

  function PartyDefaults(p: Plan): (r: Record)
    ensures Field.Preferences !in r && Field.Constraints !in r && Field.Dates !in r && Field.TotalDays !in r
  {
    map[Field.Destination := p.destination]
    + (if p.travelers.Some? then map[Field.TravelersField := TravelersTo(p.travelers.value)] else map[])
    + (if p.budget.Some? then map[Field.BudgetField := BudgetTo(p.budget.value)] else map[])
  }

  /** What hydration adds where the brief has no such entry. */
  function BriefDefaults(p: Plan): Record {
    PartyDefaults(p)
    + (if p.preferences != [] then map[Field.Preferences := List(Mapped(PreferenceTo, p.preferences))] else map[])
    + (if p.constraints != [] then map[Field.Constraints := List(Mapped(ConstraintTo, p.constraints))] else map[])
  }

  /** What hydration writes whatever the brief says. */
  function BriefForced(p: Plan, py: Py): Record {
    if p.dates.Some? then
      map[Field.Dates := DateRangeTo(p.dates.value), Field.TotalDays := Int(py.totalDays(p.dates.value))]
    else map[]
  }

  predicate Hydrates(p: Plan) { p.phase >= 2 && Truthy(p.destination) }

  /** The brief overrides the defaults; the dates override the brief. */
  function Hydrated(p: Plan, py: Py): Plan
    requires p.tripBrief.Dict?
  {
    if Hydrates(p) then p.(tripBrief := Dict(BriefDefaults(p) + p.tripBrief.m + BriefForced(p, py))) else p
  }

  lemma MergeLookup(defaults: Record, original: Record, forced: Record, key: Field)
    ensures var r := defaults + original + forced;
      && (key in r <==> key in defaults || key in original || key in forced)
      && (key in r
          ==> r[key] == if key in forced then forced[key] else if key in original then original[key] else defaults[key])
  {
  }

  /** Hydration overrides `dates` and `total_days` only, and those with the plan's own dates. */
  lemma HydrationKeepsBrief(p: Plan, key: Field, py: Py)
    requires p.tripBrief.Dict? && key in p.tripBrief.m
    ensures Hydrated(p, py).tripBrief.Dict? && key in Hydrated(p, py).tripBrief.m
    ensures var value := Hydrated(p, py).tripBrief.m[key];
      if Hydrates(p) && p.dates.Some? && key == Field.Dates then value == DateRangeTo(p.dates.value)
      else if Hydrates(p) && p.dates.Some? && key == Field.TotalDays then value == Int(py.totalDays(p.dates.value))
      else value == p.tripBrief.m[key]
  {
    var forced := BriefForced(p, py);
    assert key in forced ==> key == Field.Dates || key == Field.TotalDays;
    MergeLookup(BriefDefaults(p), p.tripBrief.m, forced, key);
  }

  /** What the plan itself can say under a key of the brief. */
  function Supplied(p: Plan, key: Field): Option<Value> {
    if key == Field.Constraints then Present(p.constraints != [], List(Mapped(ConstraintTo, p.constraints)))
    else if key == Field.Preferences then Present(p.preferences != [], List(Mapped(PreferenceTo, p.preferences)))
    else SuppliedParty(p, key)
  }

  function SuppliedParty(p: Plan, key: Field): Option<Value> {
    if key == Field.Destination then Some(p.destination)
    else if key == Field.TravelersField && p.travelers.Some? then Some(TravelersTo(p.travelers.value))
    else if key == Field.BudgetField && p.budget.Some? then Some(BudgetTo(p.budget.value))
    else None
  }

  function Present(there: bool, value: Value): Option<Value> { if there then Some(value) else None }

  function Entry(d: Record, key: Field): Option<Value> { if key in d then Some(d[key]) else None }

  lemma PartySupplied(p: Plan, key: Field)
    ensures Entry(PartyDefaults(p), key) == SuppliedParty(p, key)
  {
  }

  lemma WishesSupplied(p: Plan, party: Record, likes: Value, asks: Value, key: Field)
    requires Field.Preferences !in party && Field.Constraints !in party
    ensures Entry(party + (if p.preferences != [] then map[Field.Preferences := likes] else map[])
                        + (if p.constraints != [] then map[Field.Constraints := asks] else map[]), key)
         == if key == Field.Constraints then Present(p.constraints != [], asks)
            else if key == Field.Preferences then Present(p.preferences != [], likes)
            else Entry(party, key)
  {
  }

  lemma DefaultsAreSupplied(p: Plan, key: Field)
    ensures Entry(BriefDefaults(p), key) == Supplied(p, key)
  {
    PartySupplied(p, key);
    WishesSupplied(p, PartyDefaults(p), List(Mapped(PreferenceTo, p.preferences)),
                   List(Mapped(ConstraintTo, p.constraints)), key);
  }

  lemma ForcedAre(p: Plan, py: Py, key: Field)
    ensures Entry(BriefForced(p, py), key)
         == if p.dates.Some? && key == Field.Dates then Some(DateRangeTo(p.dates.value))
            else if p.dates.Some? && key == Field.TotalDays then Some(Int(py.totalDays(p.dates.value))) else None
  {
  }

  /** Hydration does nothing before phase 2 or without a destination, and never anything but to the brief. */
  lemma HydratesFromPhaseTwo(p: Plan, py: Py)
    requires p.tripBrief.Dict?
    ensures p.phase < 2 || !Truthy(p.destination) ==> Hydrated(p, py) == p
    ensures Hydrated(p, py).tripBrief.Dict? && Hydrated(p, py).(tripBrief := p.tripBrief) == p
  {
  }

  /** Otherwise the brief says what it said, but for the dates and their number, and where it said nothing, what the
      plan itself can say. */
  lemma HydrationFills(p: Plan, key: Field, py: Py)
    requires p.tripBrief.Dict? && p.phase >= 2 && Truthy(p.destination)
    ensures var brief := Hydrated(p, py).tripBrief;
      && brief.Dict?
      && Entry(brief.m, key) ==
         if p.dates.Some? && key == Field.Dates then Some(DateRangeTo(p.dates.value))
         else if p.dates.Some? && key == Field.TotalDays then Some(Int(py.totalDays(p.dates.value)))
         else if key in p.tripBrief.m then Some(p.tripBrief.m[key])
         else Supplied(p, key)
  {
    DefaultsAreSupplied(p, key);
    ForcedAre(p, py, key);
    MergeLookup(BriefDefaults(p), p.tripBrief.m, BriefForced(p, py), key);
  }

  lemma MergeTwice(d: Record, b: Record, f: Record)
    ensures d + (d + b + f) + f == d + b + f
  {
  }

  lemma HydratedTwice(p: Plan, py: Py)
    requires p.tripBrief.Dict?
    ensures Hydrated(p, py).tripBrief.Dict? && Hydrated(Hydrated(p, py), py) == Hydrated(p, py)
  {
    var d, b, f := BriefDefaults(p), p.tripBrief.m, BriefForced(p, py);
    if Hydrates(p) {
      var q := Hydrated(p, py);
      assert BriefDefaults(q) == d && BriefForced(q, py) == f;
      MergeTwice(d, b, f);
    }
  }

  // ----- the step within phase 2

  /** The step does not fail on a plan whose types hold. */
  function StepOf(p: Plan, py: Py): (r: string)
    requires Lawful(py) && TypesHold(p)
    ensures r in {"brief", "skeleton", "candidate", "lock"}
  {
    InferPhase2Step(p.phase, p.dates, p.tripBrief, p.candidatePool, p.shortlist, p.skeletonPlans,
                    p.selectedSkeletonId, py).value
  }

  function Synced(p: Plan, py: Py): Plan
    requires Lawful(py) && TypesHold(p)
  {
    var q := Hydrated(p, py);
    q.(phase2Step := Str(StepOf(q, py)))
  }

  lemma SyncedTwice(p: Plan, py: Py)
    requires Lawful(py) && TypesHold(p)
    ensures TypesHold(Synced(p, py)) && Synced(Synced(p, py), py) == Synced(p, py)
  {
    var q := Hydrated(p, py);
    HydratedTwice(p, py);
    var s := Synced(p, py);
    assert BriefDefaults(s) == BriefDefaults(q);
    assert Hydrated(s, py) == s;
    assert StepOf(s, py) == StepOf(q, py);
  }

  // ----- inference

  ghost predicate IsFirstMatch(skeletons: seq<Value>, i: int, selected: Value) {
    0 <= i < |skeletons| && Names(skeletons[i], selected) && forall j | 0 <= j < i :: !Names(skeletons[j], selected)
  }

  /** A skeleton with a list of days agrees with the dates when the list is as long as the trip. */
  predicate DaysAgree(skeleton: Value, total: int) {
    skeleton.Dict? && (Get(skeleton.m, Field.Days, Null).List? ==> |Get(skeleton.m, Field.Days, Null).xs| == total)
  }

  ghost predicate FirstMatchAgrees(skeletons: seq<Value>, selected: Value, total: int) {
    forall i | IsFirstMatch(skeletons, i, selected) :: DaysAgree(skeletons[i], total)
  }

  /** The first skeleton that carries the selected name agrees with the dates, if there is anything to compare. */
  ghost predicate SkeletonDaysMatch(p: Plan, py: Py)
    requires TypesHold(p)
  {
    Truthy(p.selectedSkeletonId) && p.dates.Some? ==>
      FirstMatchAgrees(Skeletons(p), p.selectedSkeletonId, py.totalDays(p.dates.value))
  }

  /** The entry condition of a phase. */
  ghost predicate Ready(p: Plan, phase: int, py: Py)
    requires TypesHold(p)
  {
    && (phase >= 2 ==> Truthy(p.destination))
    && (phase >= 3
        ==> p.dates.Some? && Truthy(p.selectedSkeletonId) && p.accommodation.Some? && SkeletonDaysMatch(p, py))
    && (phase >= 4 ==> p.dates.Some? && |p.dailyPlans| >= py.totalDays(p.dates.value))
  }

  /** The last of the four phases whose entry condition holds. */
  ghost function InferredPhase(p: Plan, py: Py): (r: int)
    requires TypesHold(p)
    ensures 1 <= r <= 4 && Ready(p, r, py)
    ensures forall q | r < q <= 4 :: !Ready(p, q, py)
  {
    if Ready(p, 4, py) then 4 else if Ready(p, 3, py) then 3 else if Ready(p, 2, py) then 2 else 1
  }

  /** The selected skeleton has a list of days of another length than the trip. */
  ghost predicate DaysClash(p: Plan, py: Py)
    requires TypesHold(p) && p.dates.Some?
  {
    exists i :: ClashesAt(Skeletons(p), i, p.selectedSkeletonId, py.totalDays(p.dates.value))
  }

  ghost predicate ClashesAt(skeletons: seq<Value>, i: int, selected: Value, total: int) {
    && 0 <= i < |skeletons| && IsNamed(skeletons[i], selected)
    && (forall j | 0 <= j < i :: !IsNamed(skeletons[j], selected))
    && Field.Days in skeletons[i].m && skeletons[i].m[Field.Days].List?
    && |skeletons[i].m[Field.Days].xs| != total
  }

  predicate IsNamed(skeleton: Value, selected: Value) {
    && skeleton.Dict?
    && (|| (Field.Id in skeleton.m && skeleton.m[Field.Id] == selected)
        || (Field.Name in skeleton.m && skeleton.m[Field.Name] == selected))
  }

  lemma ClashIsMismatch(p: Plan, py: Py)
    requires TypesHold(p) && p.dates.Some? && Truthy(p.selectedSkeletonId)
    ensures DaysClash(p, py) <==> !SkeletonDaysMatch(p, py)
  {
    var total := py.totalDays(p.dates.value);
    forall s ensures Names(s, p.selectedSkeletonId) <==> IsNamed(s, p.selectedSkeletonId) { }
    if i :| ClashesAt(Skeletons(p), i, p.selectedSkeletonId, total) {
      assert IsFirstMatch(Skeletons(p), i, p.selectedSkeletonId);
    }
    if i :| IsFirstMatch(Skeletons(p), i, p.selectedSkeletonId) && !DaysAgree(Skeletons(p)[i], total) {
      assert ClashesAt(Skeletons(p), i, p.selectedSkeletonId, total);
    }
  }

  /** The phase by the fields: the destination opens phase 2; dates, a selected skeleton that agrees with them, and an
      accommodation open phase 3; as many days as the trip has open phase 4. */
  ghost predicate IsPhaseOf(phase: int, p: Plan, py: Py)
    requires TypesHold(p)
  {
    var booked := p.dates.Some? && Truthy(p.selectedSkeletonId) && p.accommodation.Some? && !DaysClash(p, py);
    && (phase == 1 <==> !Truthy(p.destination))
    && (phase == 2 <==> Truthy(p.destination) && !booked)
    && (phase == 3 <==> Truthy(p.destination) && booked && |p.dailyPlans| < py.totalDays(p.dates.value))
    && (phase == 4 <==> Truthy(p.destination) && booked && |p.dailyPlans| >= py.totalDays(p.dates.value))
  }

  lemma PhaseByFields(p: Plan, py: Py)
    requires TypesHold(p)
    ensures IsPhaseOf(InferredPhase(p, py), p, py)
  {
    if p.dates.Some? && Truthy(p.selectedSkeletonId) { ClashIsMismatch(p, py); }
  }

  /** Taking one of the parts away lowers the phase to what the other parts still carry, and no further. */
  lemma PartsAreNeeded(p: Plan, py: Py)
    requires TypesHold(p)
    ensures InferredPhase(p.(destination := Null), py) == 1
    ensures InferredPhase(p.(dates := None), py) == Min(2, InferredPhase(p, py))
    ensures InferredPhase(p.(selectedSkeletonId := Null), py) == Min(2, InferredPhase(p, py))
    ensures InferredPhase(p.(accommodation := None), py) == Min(2, InferredPhase(p, py))
    ensures p.dates.Some? && py.totalDays(p.dates.value) > 0 ==>
              InferredPhase(p.(dailyPlans := []), py) == Min(3, InferredPhase(p, py))
  {
    PhaseByFields(p, py);
    PhaseByFields(p.(destination := Null), py);
    PhaseByFields(p.(dates := None), py);
    PhaseByFields(p.(selectedSkeletonId := Null), py);
    PhaseByFields(p.(accommodation := None), py);
    WithoutDays(p, py);
  }

  lemma WithoutDays(p: Plan, py: Py)
    requires TypesHold(p)
    ensures p.dates.Some? && py.totalDays(p.dates.value) > 0 ==>
              InferredPhase(p.(dailyPlans := []), py) == Min(3, InferredPhase(p, py))
  {
    var q := p.(dailyPlans := []);
    PhaseByFields(p, py);
    PhaseByFields(q, py);
    if p.dates.Some? {
      assert Skeletons(q) == Skeletons(p);
      assert DaysClash(q, py) == DaysClash(p, py);
    }
  }

  /** Inference looks at six fields. */
  lemma InferenceDependsOn(p: Plan, q: Plan, py: Py)
    requires TypesHold(p) && TypesHold(q)
    requires q.destination == p.destination && q.dates == p.dates && q.selectedSkeletonId == p.selectedSkeletonId
    requires q.skeletonPlans == p.skeletonPlans && q.accommodation == p.accommodation && q.dailyPlans == p.dailyPlans
    ensures InferredPhase(q, py) == InferredPhase(p, py)
  {
    assert SkeletonDaysMatch(q, py) == SkeletonDaysMatch(p, py);
  }

  /** Inference looks neither at the current phase nor at what synchronisation writes. */
  lemma InferredPhaseIgnores(p: Plan, phase: int, brief: Record, step: Value, py: Py)
    requires TypesHold(p)
    ensures InferredPhase(p.(phase := phase, tripBrief := Dict(brief), phase2Step := step), py) == InferredPhase(p, py)
  {
    InferenceDependsOn(p, p.(phase := phase, tripBrief := Dict(brief), phase2Step := step), py);
  }

  lemma SyncKeepsInference(p: Plan, py: Py)
    requires Lawful(py) && TypesHold(p)
    ensures TypesHold(Synced(p, py)) && InferredPhase(Synced(p, py), py) == InferredPhase(p, py)
  {
    HydratedTwice(p, py);
    var s := Synced(p, py);
    InferredPhaseIgnores(p, p.phase, s.tripBrief.m, s.phase2Step, py);
    assert s == p.(phase := p.phase, tripBrief := Dict(s.tripBrief.m), phase2Step := s.phase2Step);
  }

  lemma HydratedIsTruthy(p: Plan, py: Py)
    requires TypesHold(p) && Hydrates(p)
    ensures TypesHold(Hydrated(p, py)) && Truthy(Hydrated(p, py).tripBrief)
  {
    MergeLookup(BriefDefaults(p), p.tripBrief.m, BriefForced(p, py), Field.Destination);
    assert Field.Destination in Hydrated(p, py).tripBrief.m;
  }

  /** A plan in phase 2 that is ready for phase 3 is in step `lock`, unless it selects a skeleton that does
      not exist: then it stays in step `skeleton`, although inference lets it pass. */
  lemma ReadyMeansLocked(p: Plan, py: Py)
    requires Lawful(py) && TypesHold(p) && p.phase == 2 && Ready(p, 3, py)
    ensures var skeletons := Skeletons(p);
      var resolved := skeletons == [] || exists s | s in skeletons :: Names(s, p.selectedSkeletonId);
      Synced(p, py).phase2Step == Str(if resolved then "lock" else "skeleton")
  {
    HydratedIsTruthy(p, py);
  }

  /** A selection that does not resolve never holds a plan back from phase 3. */
  lemma DanglingSelectionPasses(p: Plan, py: Py)
    requires TypesHold(p) && forall s | s in Skeletons(p) :: !Names(s, p.selectedSkeletonId)
    ensures SkeletonDaysMatch(p, py)
  {
    forall i ensures !IsFirstMatch(Skeletons(p), i, p.selectedSkeletonId) {
      if 0 <= i < |Skeletons(p)| { assert Skeletons(p)[i] in Skeletons(p); }
    }
  }

  // ----- the router's methods

  /** `d.setdefault(key, value)` */
  function SetDefault(d: Record, key: Field, value: Value): Record {
    if key in d then d else d[key := value]
  }

  /** `if present: brief.setdefault(key, value)`, on a brief made of defaults, an original and forced entries. */
  method FillIf(present: bool, key: Field, value: Value, brief: Record,
                ghost defaults: Record, ghost original: Record, ghost forced: Record) returns (r: Record)
    requires brief == defaults + original + forced
    requires key !in defaults && key !in forced
    ensures r == (defaults + if present then map[key := value] else map[]) + original + forced
  {
    if present { r := SetDefault(brief, key, value); } else { r := brief; }
  }

  method StampBrief(plan: Plan, py: Py) returns (brief: Record)
    requires plan.tripBrief.Dict?
    ensures brief == map[Field.Destination := plan.destination] + plan.tripBrief.m + BriefForced(plan, py)
  {
    brief := SetDefault(plan.tripBrief.m, Field.Destination, plan.destination);
    if plan.dates.Some? {
      brief := brief[Field.Dates := DateRangeTo(plan.dates.value)];
      brief := brief[Field.TotalDays := Int(py.totalDays(plan.dates.value))];
    }
  }

  method HydrateBrief(state: TravelPlanState, py: Py)
    requires state.plan.tripBrief.Dict?
    modifies state
    ensures state.plan == Hydrated(old(state.plan), py)
  {
    var plan := state.plan;
    if plan.phase < 2 || !Truthy(plan.destination) { return; }
    var brief := StampBrief(plan, py);
    brief := FillBrief(plan, py, brief);
    if Dict(brief) != plan.tripBrief {
      state.plan := plan.(tripBrief := Dict(brief));
    }
  }

  method FillParty(plan: Plan, py: Py, stamped: Record) returns (brief: Record)
    requires plan.tripBrief.Dict?
    requires stamped == map[Field.Destination := plan.destination] + plan.tripBrief.m + BriefForced(plan, py)
    ensures brief == PartyDefaults(plan) + plan.tripBrief.m + BriefForced(plan, py)
  {
    ghost var original, forced := plan.tripBrief.m, BriefForced(plan, py);
    ghost var defaults: Record := map[Field.Destination := plan.destination];
    var travelers := if plan.travelers.Some? then TravelersTo(plan.travelers.value) else Null;
    brief := FillIf(plan.travelers.Some?, Field.TravelersField, travelers, stamped, defaults, original, forced);
    defaults := defaults + if plan.travelers.Some? then map[Field.TravelersField := travelers] else map[];
    var budget := if plan.budget.Some? then BudgetTo(plan.budget.value) else Null;
    brief := FillIf(plan.budget.Some?, Field.BudgetField, budget, brief, defaults, original, forced);
  }

  method FillBrief(plan: Plan, py: Py, stamped: Record) returns (brief: Record)
    requires plan.tripBrief.Dict?
    requires stamped == map[Field.Destination := plan.destination] + plan.tripBrief.m + BriefForced(plan, py)
    ensures brief == BriefDefaults(plan) + plan.tripBrief.m + BriefForced(plan, py)
  {
    ghost var original, forced, party := plan.tripBrief.m, BriefForced(plan, py), PartyDefaults(plan);
    brief := FillParty(plan, py, stamped);
    var preferences := List(Mapped(PreferenceTo, plan.preferences));
    brief := FillIf(plan.preferences != [], Field.Preferences, preferences, brief, party, original, forced);
    ghost var more := party + if plan.preferences != [] then map[Field.Preferences := preferences] else map[];
    var constraints := List(Mapped(ConstraintTo, plan.constraints));
    brief := FillIf(plan.constraints != [], Field.Constraints, constraints, brief, more, original, forced);
  }

  method SyncPhaseState(state: TravelPlanState, py: Py)
    requires Lawful(py) && TypesHold(state.plan)
    modifies state
    ensures state.plan == Synced(old(state.plan), py)
  {
    HydrateBrief(state, py);
    var p := state.plan;
    var step :=
      InferPhase2Step(p.phase, p.dates, p.tripBrief, p.candidatePool, p.shortlist, p.skeletonPlans,
                      p.selectedSkeletonId, py);
    state.plan := p.(phase2Step := Str(step.value));
  }

  method CheckSkeletonDays(p: Plan, py: Py) returns (ok: bool)
    requires TypesHold(p)
    ensures ok <==> SkeletonDaysMatch(p, py)
  {
    if !Truthy(p.selectedSkeletonId) || !Truthy(p.skeletonPlans) || p.dates.None? { return true; }
    var skeletons := Skeletons(p);
    for i := 0 to |skeletons|
      invariant forall j | 0 <= j < i :: !Names(skeletons[j], p.selectedSkeletonId)
    {
      if Names(skeletons[i], p.selectedSkeletonId) {
        assert IsFirstMatch(skeletons, i, p.selectedSkeletonId);
        assert forall j | IsFirstMatch(skeletons, j, p.selectedSkeletonId) :: j == i;
        var days := Get(skeletons[i].m, Field.Days, Null);
        if days.List? { return |days.xs| == py.totalDays(p.dates.value); }
        return true;
      }
    }
    return true;
  }

  method InferPhase(state: TravelPlanState, py: Py) returns (phase: int)
    requires Lawful(py) && TypesHold(state.plan)
    modifies state
    ensures state.plan == Synced(old(state.plan), py)
    ensures phase == InferredPhase(old(state.plan), py) && IsPhaseOf(phase, old(state.plan), py)
  {
    SyncKeepsInference(state.plan, py);
    PhaseByFields(state.plan, py);
    SyncPhaseState(state, py);
    var p := state.plan;
    if !Truthy(p.destination) { return 1; }
    if p.dates.None? || !Truthy(p.selectedSkeletonId) || p.accommodation.None? { return 2; }
    var matches := CheckSkeletonDays(p, py);
    if !matches { return 2; }
    if |p.dailyPlans| < py.totalDays(p.dates.value) { return 3; }
    return 4;
  }

  /** The hooks may refuse a transition, looking at the plan and the two phases. */
  datatype Hooks = NoHooks | Gate(allows: (Plan, int, int) -> bool)

  predicate Allows(hooks: Hooks, p: Plan, from: int, to: int) {
    hooks.Gate? ==> hooks.allows(p, from, to)
  }

  /** The plan after a router check, and whether the phase changed. */
  ghost function Checked(p: Plan, hooks: Hooks, py: Py): (Plan, bool)
    requires Lawful(py) && TypesHold(p)
  {
    var s := Synced(p, py);
    SyncedTwice(p, py);
    var q := InferredPhase(p, py);
    if q != p.phase && Allows(hooks, s, p.phase, q) then (Synced(s.(phase := q), py), true) else (s, false)
  }

  method CheckAndApplyTransition(state: TravelPlanState, hooks: Hooks, py: Py) returns (changed: bool)
    requires Lawful(py) && TypesHold(state.plan)
    modifies state
    ensures (state.plan, changed) == Checked(old(state.plan), hooks, py)
  {
    SyncedTwice(state.plan, py);
    var inferred := InferPhase(state, py);
    if inferred == state.plan.phase { return false; }
    if hooks.Gate? {
      var allowed := hooks.allows(state.plan, state.plan.phase, inferred);
      if !allowed { return false; }
    }
    state.plan := state.plan.(phase := inferred);
    SyncPhaseState(state, py);
    return true;
  }

  /** A second check under the same hooks changes nothing. */
  lemma CheckTwice(p: Plan, hooks: Hooks, py: Py)
    requires Lawful(py) && TypesHold(p)
    ensures var after := Checked(p, hooks, py).0;
      TypesHold(after) && Checked(after, hooks, py) == (after, false)
  {
    var s := Synced(p, py);
    SyncedTwice(p, py);
    SyncKeepsInference(p, py);
    var q := InferredPhase(p, py);
    if Checked(p, hooks, py).1 {
      var moved := s.(phase := q);
      SyncedTwice(moved, py);
      SyncKeepsInference(moved, py);
      InferredPhaseIgnores(s, q, s.tripBrief.m, s.phase2Step, py);
      assert moved == s.(phase := q, tripBrief := Dict(s.tripBrief.m), phase2Step := s.phase2Step);
    }
  }

  /** Without hooks, or when they agree, a check brings the plan to its inferred phase. */
  lemma CheckReachesInferredPhase(p: Plan, hooks: Hooks, py: Py)
    requires Lawful(py) && TypesHold(p)
    ensures var (after, changed) := Checked(p, hooks, py);
      && TypesHold(after)
      && InferredPhase(after, py) == InferredPhase(p, py)
      && after.phase == (if changed then InferredPhase(p, py) else p.phase)
      && (changed <==>
            (p.phase != InferredPhase(p, py)
             && match hooks
                case NoHooks => true
                case Gate(allows) => allows(Synced(p, py), p.phase, InferredPhase(p, py))))
  {
    var s := Synced(p, py);
    SyncedTwice(p, py);
    SyncKeepsInference(p, py);
    var q := InferredPhase(p, py);
    var moved := s.(phase := q);
    SyncedTwice(moved, py);
    SyncKeepsInference(moved, py);
    InferredPhaseIgnores(s, q, s.tripBrief.m, s.phase2Step, py);
    assert moved == s.(phase := q, tripBrief := Dict(s.tripBrief.m), phase2Step := s.phase2Step);
  }
}
