/** What the readers take from a saved dictionary, entry by entry, and what they take where it says nothing usable. */
module CodecLaws {
  import opened Basics
  import opened PyValues
  import opened StateModels
  import opened StateCodec
  import opened PlanCodec

  // ----- texts and codes

  /** The text under the key; the empty text where there is none. */
  ghost predicate ReadsText(text: string, m: Record, key: Field) {
    && (key in m && m[key].Str? ==> text == m[key].s)
    && (key !in m || !Truthy(m[key]) ==> text == "")
  }

  /** The code under the key, without spaces and in small letters, if it is one of the codes; else the usual one. */
  ghost predicate ReadsCode(code: string, m: Record, key: Field, codes: set<string>, usual: string, py: Py) {
    if key in m && m[key].Str? && py.stripLower(m[key].s) in codes then code == py.stripLower(m[key].s)
    else code == usual
  }

  /** What is under the key; null where that is falsy or missing. */
  ghost predicate ReadsTruthy(v: Value, m: Record, key: Field) {
    if key in m && Truthy(m[key]) then v == m[key] else v == Null
  }

  lemma EvidenceReads(m: Record, py: Py)
    requires Lawful(py)
    ensures var e := EvidenceFrom(Dict(m), py);
      && ReadsCode(e.sourceType, m, Field.SourceType, {"official", "web", "xiaohongshu", "user"}, "web", py)
      && ReadsCode(e.claimType, m, Field.ClaimType, {"fact", "experience", "warning"}, "experience", py)
      && ReadsCode(e.confidence, m, Field.Confidence, {"confirmed", "unverified"}, "unverified", py)
      && ReadsText(e.title, m, Field.Title) && ReadsText(e.summary, m, Field.Summary)
      && ReadsTruthy(e.sourceUrl, m, Field.SourceUrl) && ReadsTruthy(e.observedAt, m, Field.ObservedAt)
      && ReadsTruthy(e.sourceRef, m, Field.SourceRef)
  {
    assert py.str(Str("")) == "";
  }

  /** Evidence that is no dictionary is a summary, from the web, an experience, unverified. */
  lemma BareEvidence(v: Value, py: Py)
    requires Lawful(py) && !v.Dict?
    ensures var e := EvidenceFrom(v, py);
      && e.sourceType == "web" && e.title == "" && e.claimType == "experience" && e.confidence == "unverified"
      && e.sourceUrl == Null && e.observedAt == Null && e.sourceRef == Null
      && (v.Str? ==> e.summary == v.s) && (!Truthy(v) ==> e.summary == "")
  {
    assert py.str(Str("")) == "";
  }

  lemma VisitInfoReads(m: Record, py: Py)
    requires Lawful(py)
    ensures var i := VisitInfoFrom(Dict(m), py);
      && ReadsCode(i.role, m, Field.Role, {"anchor", "normal", "backup"}, "normal", py)
      && ReadsText(i.recommendationReason, m, Field.RecommendationReason)
      && (i.needsRecheck <==> Field.NeedsRecheck in m && Truthy(m[Field.NeedsRecheck]))
      && (if Field.EvidenceList in m && m[Field.EvidenceList].List?
          then |i.evidence| == |m[Field.EvidenceList].xs| && forall k | 0 <= k < |i.evidence| ::
                 i.evidence[k] == EvidenceFrom(m[Field.EvidenceList].xs[k], py)
          else i.evidence == [])
  {
    assert py.str(Str("")) == "";
  }

  lemma ExcludedReads(m: Record, py: Py)
    requires Lawful(py)
    ensures var e := ExcludedFrom(Dict(m), py);
      && ReadsText(e.name, m, Field.Name) && ReadsText(e.reason, m, Field.Reason)
      && ReadsCode(e.category, m, Field.Category,
                   {"distance", "schedule", "weather", "preference", "duplicate", "evidence"}, "preference", py)
      && ReadsTruthy(e.reconsiderWhen, m, Field.ReconsiderWhen)
      && ReadsTruthy(e.sourceCandidateId, m, Field.SourceCandidateId)
  {
    assert py.str(Str("")) == "";
  }

  // ----- places, parties, money

  /** The number under the key; zero where it is missing or falsy, or cannot be read as a number. */
  ghost predicate ReadsNumber(n: real, m: Record, key: Field, py: Py) {
    if key in m && Truthy(m[key]) && py.float(m[key]).Some? then py.float(m[key]) == Some(n) else n == 0.0
  }

  lemma LocationReads(m: Record, py: Py)
    requires Lawful(py)
    ensures var l := LocationFrom(Dict(m), py);
      && ReadsNumber(l.lat, m, Field.Lat, py) && ReadsNumber(l.lng, m, Field.Lng, py)
      && (Field.Name in m && m[Field.Name].Str? && m[Field.Name].s != "" ==> l.name == m[Field.Name].s)
      && ((Field.Name !in m || !Truthy(m[Field.Name])) && Field.Address in m && m[Field.Address].Str? ==>
            l.name == m[Field.Address].s)
    ensures LocationFrom(Null, py) == Location(0.0, 0.0, "")
    ensures forall s :: LocationFrom(Str(s), py) == Location(0.0, 0.0, s)
  {
    assert py.str(Str("")) == "";
  }

  /** Dates need both ends, a budget its total, an accommodation its area; travelers are one adult and no child where
      nothing is said, money is in CNY, and a hotel may be missing. */
  lemma PartsRead(m: Record)
    ensures if Field.Start in m && Field.End in m
            then DateRangeFrom(Dict(m)) == Ok(DateRange(m[Field.Start], m[Field.End]))
            else DateRangeFrom(Dict(m)).Err?
    ensures TravelersFrom(Dict(m)) == Ok(Travelers(if Field.Adults in m then m[Field.Adults] else Int(1),
                                                   if Field.Children in m then m[Field.Children] else Int(0)))
    ensures if Field.Total in m
            then BudgetFrom(Dict(m))
                 == Ok(Budget(m[Field.Total], if Field.Currency in m then m[Field.Currency] else Str("CNY")))
            else BudgetFrom(Dict(m)).Err?
    ensures if Field.Area in m
            then AccommodationFrom(Dict(m))
                 == Ok(Accommodation(m[Field.Area], if Field.Hotel in m then m[Field.Hotel] else Null))
            else AccommodationFrom(Dict(m)).Err?
  {
  }

  // ----- activities and days

  lemma ActivityReads(m: Record, py: Py)
    requires Lawful(py)
    ensures ActivityFrom(Dict(m), py).Ok?
    ensures var a := ActivityFrom(Dict(m), py).value;
      && (Field.Name in m && m[Field.Name].Str? ==> a.name == m[Field.Name].s)
      && (Field.StartTime in m && m[Field.StartTime].Str? ==> a.startTime == m[Field.StartTime].s)
      && (Field.EndTime in m && m[Field.EndTime].Str? ==> a.endTime == m[Field.EndTime].s)
      && (Field.Category in m && m[Field.Category].Str? && m[Field.Category].s != "" ==>
            a.category == m[Field.Category].s)
      && (Field.Category !in m || !Truthy(m[Field.Category]) ==> a.category == "activity")
      && a.location == LocationFrom(if Field.LocationField in m then m[Field.LocationField] else Null, py)
  {
  }

  lemma ActivityReadsMore(m: Record, py: Py)
    requires Lawful(py)
    ensures ActivityFrom(Dict(m), py).Ok?
    ensures var a := ActivityFrom(Dict(m), py).value;
      && a.cost == (if Field.Cost in m && Truthy(m[Field.Cost]) then m[Field.Cost] else Int(0))
      && a.transportFromPrev == (if Field.TransportFromPrev in m then m[Field.TransportFromPrev] else Null)
      && a.transportDurationMin
         == (if Field.TransportDurationMin in m && Truthy(m[Field.TransportDurationMin])
             then m[Field.TransportDurationMin] else Int(0))
      && (a.transportEstimated <==> Field.TransportEstimated in m && Truthy(m[Field.TransportEstimated]))
      && ReadsText(a.notes, m, Field.Notes)
      && a.visitInfo == (if Field.VisitInfoField in m && m[Field.VisitInfoField].Dict?
                         then Some(VisitInfoFrom(m[Field.VisitInfoField], py)) else None)
  {
    assert py.str(Str("")) == "";
  }

  /** A day reads its number, zero where that is no number, its date, all its activities, and its tips, or else its
      notes; it fails if one of the activities does. */
  lemma DayPlanReads(m: Record, py: Py)
    requires Lawful(py) && Field.Activities in m && m[Field.Activities].List?
    ensures var xs, r := m[Field.Activities].xs, DayPlanFrom(Dict(m), py);
      && (r.Ok? <==> forall k | 0 <= k < |xs| :: xs[k].Dict?)
      && (r.Ok? ==>
            && |r.value.activities| == |xs|
            && (forall k | 0 <= k < |xs| :: Ok(r.value.activities[k]) == ActivityFrom(xs[k], py))
            && (Field.Day in m && m[Field.Day].Int? ==> r.value.day == m[Field.Day].n)
            && (Field.Day in m && py.int_(m[Field.Day]).None? ==> r.value.day == 0)
            && (Field.Date in m && m[Field.Date].Str? ==> r.value.date == m[Field.Date].s)
            && (Field.Tips in m && m[Field.Tips].Str? && m[Field.Tips].s != "" ==> r.value.tips == m[Field.Tips].s)
            && (Field.Tips !in m && Field.Notes in m && m[Field.Notes].Str? ==> r.value.tips == m[Field.Notes].s))
  {
    var xs := m[Field.Activities].xs;
    assert py.str(Str("")) == "";
    assert py.iter(Or(m[Field.Activities], List([]))) == Some(xs);
    var read := TryMapped(ActivityReader(py), xs);
    forall k | 0 <= k < |xs| ensures ActivityReader(py)(xs[k]) == ActivityFrom(xs[k], py) { }
    if read.Ok? {
      forall k | 0 <= k < |xs| ensures xs[k].Dict? && Ok(read.value[k]) == ActivityFrom(xs[k], py) {
        assert ActivityReader(py)(xs[k]) == Ok(read.value[k]);
      }
    } else {
      var k :| 0 <= k < |xs| && ActivityReader(py)(xs[k]).Err?;
      assert !xs[k].Dict?;
    }
  }

  // ----- wishes and histories

  lemma WishesRead(m: Record, py: Py)
    requires Lawful(py)
    ensures if Field.Type in m && Field.Description in m
            then ConstraintFrom(Dict(m))
                 == Ok(Constraint(m[Field.Type], m[Field.Description],
                                  if Field.Source in m then m[Field.Source] else Str("")))
            else ConstraintFrom(Dict(m)).Err?
    ensures PreferenceFrom(Dict(m), py).Ok?
    ensures var p := PreferenceFrom(Dict(m), py).value;
      && (Field.Key in m && m[Field.Key].Str? && m[Field.Key].s != "" ==> p.key == m[Field.Key].s)
      && (Field.Key !in m && Field.Category in m && m[Field.Category].Str? ==> p.key == m[Field.Category].s)
      && (Field.Key !in m && Field.Category !in m ==> p.key == "")
      && p.value == (if Field.Val in m then m[Field.Val] else Str(""))
      && p.source == (if Field.Source in m then m[Field.Source] else Str(""))
  {
  }

  lemma BacktrackReads(m: Record)
    ensures if Field.FromPhase in m && Field.ToPhase in m && Field.Reason in m && Field.SnapshotPath in m
            then BacktrackFrom(Dict(m))
                 == Ok(BacktrackEvent(m[Field.FromPhase], m[Field.ToPhase], m[Field.Reason], m[Field.SnapshotPath],
                                      if Field.Timestamp in m then m[Field.Timestamp] else Str("")))
            else BacktrackFrom(Dict(m)).Err?
  {
  }

  // ----- the plan

  /** What lies under the key; the default where there is nothing. */
  ghost predicate Takes(v: Value, d: Record, key: Field, default: Value) {
    v == if key in d then d[key] else default
  }

  /** A plan loads only with a session id and a phase from one to four; these, and the entries taken over as they are,
      come from their own keys; the version is the stored one, or two if that is newer. */
  lemma PlanReads(d: Record, s: Plan, py: Py)
    requires Lawful(py) && PlanFrom(d, py) == Ok(s)
    ensures Field.SessionId in d && s.sessionId == d[Field.SessionId] && 1 <= s.phase <= 4
    ensures Field.Phase in d ==> py.int_(d[Field.Phase]) == Some(s.phase)
    ensures Field.Phase !in d ==> s.phase == 1
    ensures Takes(s.tripId, d, Field.TripId, Null) && Takes(s.destination, d, Field.Destination, Null)
    ensures Takes(s.createdAt, d, Field.CreatedAt, Str("")) && Takes(s.lastUpdated, d, Field.LastUpdated, Str(""))
    ensures Field.Version !in d ==> s.version == 2
    ensures s.version >= 2 && (Field.Version in d && d[Field.Version].Int? ==> s.version == Max(2, d[Field.Version].n))
  {
  }

  /** Phases one to four load, and no others. */
  lemma PhasesLoad(d: Record, n: int, py: Py)
    requires Lawful(py)
    ensures n in SUPPORTED_PHASES <==> 1 <= n <= 4
    ensures Field.Phase in d && d[Field.Phase] == Int(n) && !(1 <= n <= 4) ==> PlanFrom(d, py).Err?
    ensures Field.SessionId !in d ==> PlanFrom(d, py).Err?
  {
  }

  lemma PlanReadsResearch(d: Record, s: Plan, py: Py)
    requires Lawful(py) && PlanFrom(d, py) == Ok(s)
    ensures Takes(s.tripBrief, d, Field.TripBrief, Dict(map[]))
    ensures Takes(s.candidatePool, d, Field.CandidatePool, List([])) && Takes(s.shortlist, d, Field.Shortlist, List([]))
    ensures Takes(s.skeletonPlans, d, Field.SkeletonPlans, List([]))
    ensures Takes(s.selectedSkeletonId, d, Field.SelectedSkeletonId, Null)
    ensures Field.Phase2Step in d && Truthy(d[Field.Phase2Step]) ==> s.phase2Step == d[Field.Phase2Step]
    ensures !(Field.Phase2Step in d && Truthy(d[Field.Phase2Step])) ==>
      exists step :: s.phase2Step == Str(step)
        && InferPhase2Step(s.phase, s.dates, s.tripBrief, s.candidatePool, s.shortlist, s.skeletonPlans,
                           s.selectedSkeletonId, py) == Ok(step)
  {
  }

  lemma PlanReadsChoices(d: Record, s: Plan, py: Py)
    requires Lawful(py) && PlanFrom(d, py) == Ok(s)
    ensures Takes(s.transportOptions, d, Field.TransportOptions, List([]))
    ensures Takes(s.selectedTransport, d, Field.SelectedTransport, Null)
    ensures Takes(s.accommodationOptions, d, Field.AccommodationOptions, List([]))
    ensures Takes(s.risks, d, Field.Risks, List([])) && Takes(s.alternatives, d, Field.Alternatives, List([]))
    ensures Takes(s.deliverables, d, Field.Deliverables, Null)
  {
  }

  /** An optional part is read from its own key when that is truthy, and is absent otherwise. */
  ghost predicate ReadsPart<T>(part: Option<T>, d: Record, key: Field, read: Value -> Result<T>) {
    if key in d && Truthy(d[key]) then part.Some? && read(d[key]) == Ok(part.value) else part == None
  }

  lemma PlanReadsTrip(d: Record, s: Plan, py: Py)
    requires Lawful(py) && PlanFrom(d, py) == Ok(s)
    ensures ReadsPart(s.dates, d, Field.Dates, DateRangeFrom)
    ensures ReadsPart(s.travelers, d, Field.TravelersField, TravelersFrom)
  {
  }

  lemma PlanReadsMoney(d: Record, s: Plan, py: Py)
    requires Lawful(py) && PlanFrom(d, py) == Ok(s)
    ensures ReadsPart(s.budget, d, Field.BudgetField, BudgetFrom)
    ensures ReadsPart(s.accommodation, d, Field.AccommodationField, AccommodationFrom)
  {
  }

  /** A list of parts is read from its own key, part by part. */
  ghost predicate ReadsList<T>(parts: seq<T>, d: Record, key: Field, read: Value -> Result<T>) {
    && (key !in d ==> parts == [])
    && (key in d && d[key].List? ==>
          |parts| == |d[key].xs| && forall k | 0 <= k < |parts| :: read(d[key].xs[k]) == Ok(parts[k]))
  }

  lemma ListReads<T>(d: Record, key: Field, read: Value -> Result<T>, parts: seq<T>, py: Py)
    requires Lawful(py) && ReadList(Get(d, key, List([])), read, py) == Ok(parts)
    ensures ReadsList(parts, d, key, read)
  {
    assert py.iter(List([])) == Some([]);
    if key in d && d[key].List? { assert py.iter(d[key]) == Some(d[key].xs); }
  }

  lemma PlanReadsLists(d: Record, s: Plan, py: Py)
    requires Lawful(py) && PlanFrom(d, py) == Ok(s)
    ensures ReadsList(s.dailyPlans, d, Field.DailyPlans, DayPlanReader(py))
    ensures ReadsList(s.constraints, d, Field.Constraints, ConstraintFrom)
    ensures ReadsList(s.preferences, d, Field.Preferences, PreferenceReader(py))
    ensures ReadsList(s.decisionEvents, d, Field.DecisionEvents, EventReader(py))
    ensures ReadsList(s.lessonEvents, d, Field.LessonEvents, EventReader(py))
    ensures ReadsList(s.backtrackHistory, d, Field.BacktrackHistory, BacktrackFrom)
  {
    ListReads(d, Field.DailyPlans, DayPlanReader(py), s.dailyPlans, py);
    ListReads(d, Field.Constraints, ConstraintFrom, s.constraints, py);
    ListReads(d, Field.Preferences, PreferenceReader(py), s.preferences, py);
    ListReads(d, Field.DecisionEvents, EventReader(py), s.decisionEvents, py);
    ListReads(d, Field.LessonEvents, EventReader(py), s.lessonEvents, py);
    ListReads(d, Field.BacktrackHistory, BacktrackFrom, s.backtrackHistory, py);
  }
}
