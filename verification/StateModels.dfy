/** The travel-plan state and its dictionary form. Fields that the loader takes over unchecked are
    kept as values; the parts it rebuilds are records. */
module StateModels {
  import opened Basics
  import opened PyValues

  /** The conversions Python defines and this model does not: `str`, `int`, `float`, iteration,
      `dict`, and `s.strip().lower()`; plus the number of days a date range covers and the canonical
      name of a pace, where it has one. */
  datatype Py = Py(
    str: Value -> string,
    int_: Value -> Option<int>,
    float: Value -> Option<real>,
    iter: Value -> Option<seq<Value>>,
    dict: Value -> Option<Record>,
    stripLower: string -> string,
    totalDays: DateRange -> int,
    pace: Value -> Option<string>
  )

  const CURRENT_STATE_VERSION := 2

  const EVIDENCE_SOURCE_TYPES := {"official", "web", "xiaohongshu", "user"}
  const EVIDENCE_CLAIM_TYPES := {"fact", "experience", "warning"}
  const EVIDENCE_CONFIDENCE_LEVELS := {"confirmed", "unverified"}
  const VISIT_ROLES := {"anchor", "normal", "backup"}
  const EXCLUDED_CATEGORIES := {"distance", "schedule", "weather", "preference", "duplicate", "evidence"}

  // ----- the records

  datatype EvidenceRecord = EvidenceRecord(sourceType: string, title: string, summary: string, claimType: string,
                                           confidence: string, sourceUrl: Value, observedAt: Value, sourceRef: Value)

  datatype VisitInfo = VisitInfo(role: string, recommendationReason: string, needsRecheck: bool,
                                 evidence: seq<EvidenceRecord>)

  datatype ExcludedCandidate = ExcludedCandidate(name: string, reason: string, category: string,
                                                 reconsiderWhen: Value, sourceCandidateId: Value)

  datatype Location = Location(lat: real, lng: real, name: string)

  datatype DateRange = DateRange(start: Value, end: Value)

  datatype Travelers = Travelers(adults: Value, children: Value)

  datatype Budget = Budget(total: Value, currency: Value)

  datatype Accommodation = Accommodation(area: Value, hotel: Value)

  datatype Activity = Activity(name: string, location: Location, startTime: string, endTime: string, category: string,
                               cost: Value, transportFromPrev: Value, transportDurationMin: Value,
                               transportEstimated: bool, notes: string, visitInfo: Option<VisitInfo>)

  datatype DayPlan = DayPlan(day: int, date: string, activities: seq<Activity>, tips: string)

  datatype Constraint = Constraint(type_: Value, description: Value, source: Value)

  datatype Preference = Preference(key: string, value: Value, source: Value)

  datatype BacktrackEvent = BacktrackEvent(fromPhase: Value, toPhase: Value, reason: Value, snapshotPath: Value,
                                           timestamp: Value)

  datatype Plan = Plan(
    sessionId: Value, tripId: Value, phase: int, destination: Value, dates: Option<DateRange>, phase2Step: Value,
    tripBrief: Value, candidatePool: Value, shortlist: Value, excludedCandidates: seq<ExcludedCandidate>,
    skeletonPlans: Value, selectedSkeletonId: Value, transportOptions: Value, selectedTransport: Value,
    accommodationOptions: Value, travelers: Option<Travelers>, budget: Option<Budget>,
    accommodation: Option<Accommodation>,
    risks: Value, alternatives: Value, dailyPlans: seq<DayPlan>, deliverables: Value,
    constraints: seq<Constraint>, preferences: seq<Preference>, decisionEvents: seq<Record>, lessonEvents: seq<Record>,
    backtrackHistory: seq<BacktrackEvent>, createdAt: Value, lastUpdated: Value, version: int)

  // ----- the step within phase 2

  /** A skeleton names the selected one by `id` or by `name`; anything but a dict never does. */
  predicate Names(skeleton: Value, selected: Value) {
    skeleton.Dict? && (Get(skeleton.m, Field.Id, Null) == selected || Get(skeleton.m, Field.Name, Null) == selected)
  }

  function InferPhase2Step(phase: int, dates: Option<DateRange>, tripBrief: Value, candidatePool: Value,
                           shortlist: Value, skeletonPlans: Value, selectedSkeletonId: Value,
                           py: Py): (r: Result<string>)
    ensures r.Ok? ==> r.value in {"brief", "skeleton", "candidate", "lock"}
  {
    if phase < 2 then Ok("brief")
    else if phase > 2 then Ok("lock")
    else if dates.None? || !Truthy(tripBrief) then Ok("brief")
    else if !Truthy(selectedSkeletonId) then
      if Truthy(skeletonPlans) then Ok("skeleton")
      else if Truthy(shortlist) || Truthy(candidatePool) then Ok("candidate")
      else if !tripBrief.Dict? then Err
      else if Truthy(Get(tripBrief.m, Field.Goal, Null)) && Truthy(Get(tripBrief.m, Field.Pace, Null))
        then Ok("candidate")
      else Ok("brief")
    else if Truthy(skeletonPlans) then
      var skeletons := py.iter(skeletonPlans);
      if skeletons.None? then Err
      else if exists s | s in skeletons.value :: Names(s, selectedSkeletonId) then Ok("lock")
      else Ok("skeleton")
    else Ok("lock")
  }

  /** The selection names a skeleton, or there are none to name. */
  predicate Resolves(skeletonPlans: Value, selectedSkeletonId: Value, py: Py) {
    Truthy(selectedSkeletonId) && (Truthy(skeletonPlans) ==>
      py.iter(skeletonPlans).Some? && exists s | s in py.iter(skeletonPlans).value :: Names(s, selectedSkeletonId))
  }

  /** Goal and pace are known, or candidates are. */
  predicate Researched(tripBrief: Value, candidatePool: Value, shortlist: Value) {
    || Truthy(shortlist) || Truthy(candidatePool)
    || (tripBrief.Dict? && Truthy(Get(tripBrief.m, Field.Goal, Null)) && Truthy(Get(tripBrief.m, Field.Pace, Null)))
  }

  /** Which step applies. Outside phase 2 it is fixed, and without dates or a brief it is the first one. Within, a
      resolved selection locks; an unresolved one, or skeletons without one, stay with the skeletons; without
      either, research decides. It fails only on skeletons that cannot be searched, or a brief that is no dictionary
      where goal and pace are asked for. */
  lemma StepIsStage(phase: int, dates: Option<DateRange>, tripBrief: Value, candidatePool: Value, shortlist: Value,
                    skeletonPlans: Value, selectedSkeletonId: Value, py: Py)
    ensures var step := InferPhase2Step(phase, dates, tripBrief, candidatePool, shortlist, skeletonPlans,
                                        selectedSkeletonId, py);
      var briefed := phase == 2 && dates.Some? && Truthy(tripBrief);
      var resolved := Resolves(skeletonPlans, selectedSkeletonId, py);
      var researched := Researched(tripBrief, candidatePool, shortlist);
      && (step == Ok("lock") <==> phase > 2 || (briefed && resolved))
      && (step == Ok("skeleton") <==>
            (briefed && !resolved && Truthy(skeletonPlans)
             && (Truthy(selectedSkeletonId) ==> py.iter(skeletonPlans).Some?)))
      && (step == Ok("candidate") <==> briefed && !resolved && !Truthy(skeletonPlans) && researched)
      && (step == Err <==>
            (briefed && !resolved &&
             if Truthy(skeletonPlans)
             then Truthy(selectedSkeletonId) && py.iter(skeletonPlans).None?
             else !researched && !tripBrief.Dict?))
  {
  }
}
