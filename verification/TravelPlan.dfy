/** The travel-plan object and what a backtrack clears. */
module TravelPlan {
  import opened Basics
  import opened PyValues
  import opened StateModels

  /** The attributes that have a default to fall back to. */
  datatype Attr =
    | Destination | Dates | Phase2Step | TripBrief | CandidatePool | Shortlist
    | ExcludedCandidates | SkeletonPlans | SelectedSkeletonId | TransportOptions | SelectedTransport
    | AccommodationOptions
    | Accommodation | Risks | Alternatives | DailyPlans | Deliverables

  // ----- the table of downstream fields

  const DOWNSTREAM_1 := {
    Attr.Destination, Attr.Dates, Attr.Phase2Step, Attr.TripBrief, Attr.CandidatePool, Attr.Shortlist,
    Attr.ExcludedCandidates, Attr.SkeletonPlans, Attr.SelectedSkeletonId, Attr.TransportOptions,
    Attr.SelectedTransport, Attr.AccommodationOptions, Attr.Accommodation, Attr.Risks, Attr.Alternatives,
    Attr.DailyPlans, Attr.Deliverables}

  const DOWNSTREAM_2 := {
    Attr.Phase2Step, Attr.SkeletonPlans, Attr.SelectedSkeletonId, Attr.TransportOptions,
    Attr.SelectedTransport, Attr.AccommodationOptions, Attr.Accommodation, Attr.Risks, Attr.Alternatives,
    Attr.DailyPlans, Attr.Deliverables}

  const DOWNSTREAM_3 := {
    Attr.DailyPlans, Attr.Deliverables}

  function Downstream(phase: int): set<Attr>
    requires 1 <= phase <= 3
  {
    if phase == 1 then DOWNSTREAM_1 else if phase == 2 then DOWNSTREAM_2 else DOWNSTREAM_3
  }

  /** The fields cleared by a backtrack to `from`: those of every phase of the table not before it. */
  ghost function DownstreamOf(from: int): (r: set<Attr>)
    ensures forall a :: a in r <==> exists phase | 1 <= phase <= 3 && from <= phase :: a in Downstream(phase)
  {
    set phase, a | 1 <= phase <= 3 && from <= phase && a in Downstream(phase) :: a
  }

  /** Later phases clear part of what earlier ones clear, so a backtrack to 1, 2 or 3 clears its own row. */
  lemma DownstreamIsRow(from: int)
    ensures DownstreamOf(from) == if from <= 3 then Downstream(if from <= 1 then 1 else from) else {}
  {
    assert forall phase, q, a | 1 <= phase <= q <= 3 && a in Downstream(q) :: a in Downstream(phase);
  }

  // ----- the values of a plan

  /** The plan with every field in `gone` at its default. */
  function WithDefaults(p: Plan, gone: set<Attr>): Plan {
    p.(destination := if Attr.Destination in gone then Null else p.destination,
       dates := if Attr.Dates in gone then None else p.dates,
       phase2Step := if Attr.Phase2Step in gone then Str("brief") else p.phase2Step,
       tripBrief := if Attr.TripBrief in gone then Dict(map[]) else p.tripBrief,
       candidatePool := if Attr.CandidatePool in gone then List([]) else p.candidatePool,
       shortlist := if Attr.Shortlist in gone then List([]) else p.shortlist,
       excludedCandidates := if Attr.ExcludedCandidates in gone then [] else p.excludedCandidates,
       skeletonPlans := if Attr.SkeletonPlans in gone then List([]) else p.skeletonPlans,
       selectedSkeletonId := if Attr.SelectedSkeletonId in gone then Null else p.selectedSkeletonId,
       transportOptions := if Attr.TransportOptions in gone then List([]) else p.transportOptions,
       selectedTransport := if Attr.SelectedTransport in gone then Null else p.selectedTransport,
       accommodationOptions := if Attr.AccommodationOptions in gone then List([]) else p.accommodationOptions,
       accommodation := if Attr.Accommodation in gone then None else p.accommodation,
       risks := if Attr.Risks in gone then List([]) else p.risks,
       alternatives := if Attr.Alternatives in gone then List([]) else p.alternatives,
       dailyPlans := if Attr.DailyPlans in gone then [] else p.dailyPlans,
       deliverables := if Attr.Deliverables in gone then Null else p.deliverables)
  }

  /** The plan with one field at its default. */
  function WithDefault(p: Plan, attr: Attr): Plan {
    match attr
    case Destination => p.(destination := Null)
    case Dates => p.(dates := None)
    case Phase2Step => p.(phase2Step := Str("brief"))
    case TripBrief => p.(tripBrief := Dict(map[]))
    case CandidatePool => p.(candidatePool := List([]))
    case Shortlist => p.(shortlist := List([]))
    case ExcludedCandidates => p.(excludedCandidates := [])
    case SkeletonPlans => p.(skeletonPlans := List([]))
    case SelectedSkeletonId => p.(selectedSkeletonId := Null)
    case TransportOptions => p.(transportOptions := List([]))
    case SelectedTransport => p.(selectedTransport := Null)
    case AccommodationOptions => p.(accommodationOptions := List([]))
    case Accommodation => p.(accommodation := None)
    case Risks => p.(risks := List([]))
    case Alternatives => p.(alternatives := List([]))
    case DailyPlans => p.(dailyPlans := [])
    case Deliverables => p.(deliverables := Null)
  }

  /** The fields with a default, in four groups: these, the next, those after, and the rest. */
  predicate InBrief(attr: Attr) { attr.Destination? || attr.Dates? || attr.Phase2Step? || attr.TripBrief? }

  predicate InResearch(attr: Attr) {
    attr.CandidatePool? || attr.Shortlist? || attr.ExcludedCandidates? || attr.SkeletonPlans?
  }

  predicate InSelection(attr: Attr) {
    || attr.SelectedSkeletonId? || attr.TransportOptions? || attr.SelectedTransport? || attr.AccommodationOptions?
    || attr.Accommodation?
  }

  predicate InItinerary(attr: Attr) { attr.Risks? || attr.Alternatives? || attr.DailyPlans? || attr.Deliverables? }

  lemma BriefStep(p: Plan, gone: set<Attr>, attr: Attr)
    requires InBrief(attr)
    ensures WithDefault(WithDefaults(p, gone), attr) == WithDefaults(p, gone + {attr})
  {
  }

  lemma ResearchStep(p: Plan, gone: set<Attr>, attr: Attr)
    requires InResearch(attr)
    ensures WithDefault(WithDefaults(p, gone), attr) == WithDefaults(p, gone + {attr})
  {
  }

  lemma SelectionStep(p: Plan, gone: set<Attr>, attr: Attr)
    requires InSelection(attr)
    ensures WithDefault(WithDefaults(p, gone), attr) == WithDefaults(p, gone + {attr})
  {
  }

  lemma ItineraryStep(p: Plan, gone: set<Attr>, attr: Attr)
    requires InItinerary(attr)
    ensures WithDefault(WithDefaults(p, gone), attr) == WithDefaults(p, gone + {attr})
  {
  }

  lemma WithDefaultsStep(p: Plan, gone: set<Attr>, attr: Attr)
    ensures WithDefault(WithDefaults(p, gone), attr) == WithDefaults(p, gone + {attr})
  {
    if InBrief(attr) {
      BriefStep(p, gone, attr);
    } else if InResearch(attr) {
      ResearchStep(p, gone, attr);
    } else if InSelection(attr) {
      SelectionStep(p, gone, attr);
    } else {
      ItineraryStep(p, gone, attr);
    }
  }

  /** The plan after `clear_downstream(from)`. */
  ghost function Cleared(p: Plan, from: int): Plan {
    WithDefaults(p, DownstreamOf(from))
  }

  lemma WithDefaultsTwice(p: Plan, a: set<Attr>, b: set<Attr>)
    ensures WithDefaults(WithDefaults(p, a), b) == WithDefaults(p, a + b)
  {
  }

  /** Clearing from two phases, in either order, is clearing from the earlier one. */
  lemma ClearedTwice(p: Plan, a: int, b: int)
    ensures Cleared(Cleared(p, a), b) == Cleared(p, if a <= b then a else b)
    ensures Cleared(Cleared(p, a), b) == Cleared(Cleared(p, b), a)
  {
    var least := if a <= b then a else b;
    WithDefaultsTwice(p, DownstreamOf(a), DownstreamOf(b));
    WithDefaultsTwice(p, DownstreamOf(b), DownstreamOf(a));
    assert DownstreamOf(a) + DownstreamOf(b) == DownstreamOf(least);
    assert DownstreamOf(b) + DownstreamOf(a) == DownstreamOf(least);
  }

  // ----- the object

  /** The state object. Its fields are the components of `plan`. */
  class TravelPlanState {
    var plan: Plan

    constructor (p: Plan)
      ensures plan == p
    {
      plan := p;
    }

    /** `setattr(self, attr, deepcopy(_FIELD_DEFAULTS[attr]))` for each field of a row of the table. */
    method ClearRow(attrs: set<Attr>)
      modifies this
      ensures plan == WithDefaults(old(plan), attrs)
    {
      var left := attrs;
      while left != {}
        invariant left <= attrs
        invariant plan == WithDefaults(old(plan), attrs - left)
      {
        var attr :| attr in left;
        WithDefaultsStep(old(plan), attrs - left, attr);
        plan := WithDefault(plan, attr);
        left := left - {attr};
        assert attrs - left == attrs - (left + {attr}) + {attr};
      }
      assert attrs - left == attrs;
    }

    method ClearDownstream(from: int)
      modifies this
      ensures plan == Cleared(old(plan), from)
    {
      ghost var gone: set<Attr> := {};
      for phase := 1 to 4
        invariant plan == WithDefaults(old(plan), gone)
        invariant forall a :: a in gone <==> exists q | 1 <= q < phase && from <= q :: a in Downstream(q)
      {
        if phase >= from {
          ClearRow(Downstream(phase));
          WithDefaultsTwice(old(plan), gone, Downstream(phase));
          gone := gone + Downstream(phase);
        }
      }
      assert gone == DownstreamOf(from);
    }
  }
}
