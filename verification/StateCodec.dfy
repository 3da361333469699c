/** Writing a plan to a dictionary and reading it back, with the reader's tolerance for missing
    and malformed entries. */
module StateCodec {
  import opened Basics
  import opened PyValues
  import opened StateModels

  /** What Python guarantees about the conversions on the values the writer produces. */
  ghost predicate Lawful(py: Py) {
    && (forall s :: py.str(Str(s)) == s)
    && (forall v :: Truthy(v) ==> py.str(v) != "")
    && (forall n :: py.int_(Int(n)) == Some(n))
    && (forall r :: py.float(Float(r)) == Some(r))
    && py.float(Int(0)) == Some(0.0)
    && (forall xs :: py.iter(List(xs)) == Some(xs))
    && (forall m :: py.dict(Dict(m)) == Some(m))
    && Settles(EVIDENCE_SOURCE_TYPES, py) && Settles(EVIDENCE_CLAIM_TYPES, py)
    && Settles(EVIDENCE_CONFIDENCE_LEVELS, py)
    && Settles(VISIT_ROLES, py) && Settles(EXCLUDED_CATEGORIES, py)
  }

  /** The codes are lower-case and carry no spaces. */
  ghost predicate Settles(codes: set<string>, py: Py) {
    forall s | s in codes :: py.stripLower(s) == s
  }

  // ----- small conversions

  function NormalizeEnum(value: Value, allowed: set<string>, fallback: string, py: Py): (r: string)
    ensures r in allowed || r == fallback
  {
    if value.Str? && py.stripLower(value.s) in allowed then py.stripLower(value.s) else fallback
  }

  /** `str(d.get(key, "") or "")` */
  function Text(d: Record, key: Field, py: Py): string {
    py.str(Or(Get(d, key, Str("")), Str("")))
  }

  /** `d.get(key) or None` */
  function OrNone(d: Record, key: Field): (r: Value)
    ensures Truthy(r) || r == Null
  {
    Or(Get(d, key, Null), Null)
  }

  function FloatOrZero(v: Value, py: Py): real {
    var f := py.float(Or(v, Int(0)));
    if f.Some? then f.value else 0.0
  }

  // ----- readers

  function EvidenceFrom(v: Value, py: Py): EvidenceRecord {
    if !v.Dict? then
      EvidenceRecord("web", "", py.str(Or(v, Str(""))), "experience", "unverified", Null, Null, Null)
    else
      EvidenceRecord(
        NormalizeEnum(Get(v.m, Field.SourceType, Null), EVIDENCE_SOURCE_TYPES, "web", py),
        Text(v.m, Field.Title, py),
        Text(v.m, Field.Summary, py),
        NormalizeEnum(Get(v.m, Field.ClaimType, Null), EVIDENCE_CLAIM_TYPES, "experience", py),
        NormalizeEnum(Get(v.m, Field.Confidence, Null), EVIDENCE_CONFIDENCE_LEVELS, "unverified", py),
        OrNone(v.m, Field.SourceUrl),
        OrNone(v.m, Field.ObservedAt),
        OrNone(v.m, Field.SourceRef))
  }

  function EvidenceTo(e: EvidenceRecord): Value {
    Dict(map[
      Field.SourceType := Str(e.sourceType),
      Field.Title := Str(e.title),
      Field.Summary := Str(e.summary),
      Field.ClaimType := Str(e.claimType),
      Field.Confidence := Str(e.confidence),
      Field.SourceUrl := e.sourceUrl,
      Field.ObservedAt := e.observedAt,
      Field.SourceRef := e.sourceRef])
  }

  function VisitInfoFrom(v: Value, py: Py): VisitInfo {
    if !v.Dict? then VisitInfo("normal", "", false, [])
    else
      var raw := Get(v.m, Field.EvidenceList, Null);
      VisitInfo(
        NormalizeEnum(Get(v.m, Field.Role, Null), VISIT_ROLES, "normal", py),
        Text(v.m, Field.RecommendationReason, py),
        Truthy(Get(v.m, Field.NeedsRecheck, Bool(false))),
        if raw.List? then Mapped(e => EvidenceFrom(e, py), raw.xs) else [])
  }

  function VisitInfoTo(i: VisitInfo): Value {
    Dict(map[
      Field.Role := Str(i.role),
      Field.RecommendationReason := Str(i.recommendationReason),
      Field.NeedsRecheck := Bool(i.needsRecheck),
      Field.EvidenceList := List(Mapped(EvidenceTo, i.evidence))])
  }

  function ExcludedFrom(v: Value, py: Py): ExcludedCandidate {
    if !v.Dict? then ExcludedCandidate(py.str(Or(v, Str(""))), "", "preference", Null, Null)
    else
      ExcludedCandidate(
        Text(v.m, Field.Name, py),
        Text(v.m, Field.Reason, py),
        NormalizeEnum(Get(v.m, Field.Category, Null), EXCLUDED_CATEGORIES, "preference", py),
        OrNone(v.m, Field.ReconsiderWhen),
        OrNone(v.m, Field.SourceCandidateId))
  }

  function ExcludedTo(e: ExcludedCandidate): Value {
    Dict(map[
      Field.Name := Str(e.name),
      Field.Reason := Str(e.reason),
      Field.Category := Str(e.category),
      Field.ReconsiderWhen := e.reconsiderWhen,
      Field.SourceCandidateId := e.sourceCandidateId])
  }

  function LocationFrom(v: Value, py: Py): Location {
    match v
    case Null => Location(0.0, 0.0, "")
    case Str(s) => Location(0.0, 0.0, s)
    case Dict(m) =>
      Location(
        FloatOrZero(Get(m, Field.Lat, Int(0)), py),
        FloatOrZero(Get(m, Field.Lng, Int(0)), py),
        py.str(Or(Or(Get(m, Field.Name, Null), Get(m, Field.Address, Null)), Str(""))))
    case _ => Location(0.0, 0.0, py.str(v))
  }

  function LocationTo(l: Location): Value {
    Dict(map[Field.Lat := Float(l.lat), Field.Lng := Float(l.lng), Field.Name := Str(l.name)])
  }

  function DateRangeFrom(v: Value): Result<DateRange> {
    if v.Dict? && Field.Start in v.m && Field.End in v.m then Ok(DateRange(v.m[Field.Start], v.m[Field.End])) else Err
  }

  function DateRangeTo(r: DateRange): Value { Dict(map[Field.Start := r.start, Field.End := r.end]) }

  function TravelersFrom(v: Value): Result<Travelers> {
    if v.Dict? then Ok(Travelers(Get(v.m, Field.Adults, Int(1)), Get(v.m, Field.Children, Int(0)))) else Err
  }

  function TravelersTo(t: Travelers): Value { Dict(map[Field.Adults := t.adults, Field.Children := t.children]) }

  function BudgetFrom(v: Value): Result<Budget> {
    if v.Dict? && Field.Total in v.m then Ok(Budget(v.m[Field.Total], Get(v.m, Field.Currency, Str("CNY")))) else Err
  }

  function BudgetTo(b: Budget): Value { Dict(map[Field.Total := b.total, Field.Currency := b.currency]) }

  function AccommodationFrom(v: Value): Result<Accommodation> {
    if v.Dict? && Field.Area in v.m then Ok(Accommodation(v.m[Field.Area], Get(v.m, Field.Hotel, Null))) else Err
  }

  function AccommodationTo(a: Accommodation): Value { Dict(map[Field.Area := a.area, Field.Hotel := a.hotel]) }

  function ActivityFrom(v: Value, py: Py): Result<Activity> {
    if !v.Dict? then Err
    else
      var info := Get(v.m, Field.VisitInfoField, Null);
      Ok(Activity(
        py.str(Get(v.m, Field.Name, Str(""))),
        LocationFrom(Get(v.m, Field.LocationField, Null), py),
        py.str(Get(v.m, Field.StartTime, Str(""))),
        py.str(Get(v.m, Field.EndTime, Str(""))),
        py.str(Or(Get(v.m, Field.Category, Null), Str("activity"))),
        Or(Get(v.m, Field.Cost, Int(0)), Int(0)),
        Get(v.m, Field.TransportFromPrev, Null),
        Or(Get(v.m, Field.TransportDurationMin, Int(0)), Int(0)),
        Truthy(Get(v.m, Field.TransportEstimated, Bool(false))),
        Text(v.m, Field.Notes, py),
        if info.Dict? then Some(VisitInfoFrom(info, py)) else None))
  }

  function ActivityReader(py: Py): Value -> Result<Activity> { v => ActivityFrom(v, py) }

  function ActivityBase(a: Activity): Record {
    map[
      Field.Name := Str(a.name),
      Field.LocationField := LocationTo(a.location),
      Field.StartTime := Str(a.startTime),
      Field.EndTime := Str(a.endTime),
      Field.Category := Str(a.category),
      Field.Cost := a.cost,
      Field.TransportFromPrev := a.transportFromPrev,
      Field.TransportDurationMin := a.transportDurationMin,
      Field.TransportEstimated := Bool(a.transportEstimated),
      Field.Notes := Str(a.notes)]
  }

  function ActivityTo(a: Activity): Value {
    if a.visitInfo.Some? then Dict(ActivityBase(a)[Field.VisitInfoField := VisitInfoTo(a.visitInfo.value)])
    else Dict(ActivityBase(a))
  }

  function DayPlanFrom(v: Value, py: Py): Result<DayPlan> {
    if !v.Dict? then Err
    else
      var items := py.iter(Or(Get(v.m, Field.Activities, List([])), List([])));
      if items.None? then Err
      else
        var activities :- TryMapped(ActivityReader(py), items.value);
        var day := py.int_(Get(v.m, Field.Day, Int(0)));
        Ok(DayPlan(
          if day.Some? then day.value else 0,
          py.str(Get(v.m, Field.Date, Str(""))),
          activities,
          py.str(Or(Or(Get(v.m, Field.Tips, Str("")), Get(v.m, Field.Notes, Str(""))), Str("")))))
  }

  function DayPlanTo(d: DayPlan): Value {
    Dict(map[
      Field.Day := Int(d.day),
      Field.Date := Str(d.date),
      Field.Activities := List(Mapped(ActivityTo, d.activities)),
      Field.Tips := Str(d.tips)])
  }

  function ConstraintFrom(v: Value): Result<Constraint> {
    if v.Dict? && Field.Type in v.m && Field.Description in v.m then
      Ok(Constraint(v.m[Field.Type], v.m[Field.Description], Get(v.m, Field.Source, Str(""))))
    else Err
  }

  /** A falsy source is not written. */
  function ConstraintTo(c: Constraint): Value {
    var base: Record := map[Field.Type := c.type_, Field.Description := c.description];
    Dict(if Truthy(c.source) then base[Field.Source := c.source] else base)
  }

  function PreferenceFrom(v: Value, py: Py): Result<Preference> {
    if !v.Dict? then Err
    else
      var key := Or(Get(v.m, Field.Key, Null), Get(v.m, Field.Category, Null));
      Ok(Preference(if key == Null then "" else py.str(key),
                    Get(v.m, Field.Val, Str("")), Get(v.m, Field.Source, Str(""))))
  }

  function PreferenceTo(p: Preference): Value {
    var base: Record := map[Field.Key := Str(p.key), Field.Val := p.value];
    Dict(if Truthy(p.source) then base[Field.Source := p.source] else base)
  }

  function BacktrackFrom(v: Value): Result<BacktrackEvent> {
    if v.Dict? && Field.FromPhase in v.m && Field.ToPhase in v.m && Field.Reason in v.m && Field.SnapshotPath in v.m
    then
      Ok(BacktrackEvent(v.m[Field.FromPhase], v.m[Field.ToPhase], v.m[Field.Reason], v.m[Field.SnapshotPath],
                        Get(v.m, Field.Timestamp, Str(""))))
    else Err
  }

  function BacktrackTo(b: BacktrackEvent): Value {
    Dict(map[
      Field.FromPhase := b.fromPhase,
      Field.ToPhase := b.toPhase,
      Field.Reason := b.reason,
      Field.SnapshotPath := b.snapshotPath,
      Field.Timestamp := b.timestamp])
  }

  // ----- what the readers produce, and what survives

  ghost predicate IsEvidence(e: EvidenceRecord) {
    && e.sourceType in EVIDENCE_SOURCE_TYPES && e.claimType in EVIDENCE_CLAIM_TYPES
    && e.confidence in EVIDENCE_CONFIDENCE_LEVELS
    && (Truthy(e.sourceUrl) || e.sourceUrl == Null)
    && (Truthy(e.observedAt) || e.observedAt == Null)
    && (Truthy(e.sourceRef) || e.sourceRef == Null)
  }

  lemma EvidenceRead(v: Value, py: Py)
    ensures IsEvidence(EvidenceFrom(v, py))
  {
  }

  lemma CodeTrip(code: string, allowed: set<string>, fallback: string, py: Py)
    requires Settles(allowed, py) && code in allowed
    ensures NormalizeEnum(Str(code), allowed, fallback, py) == code
  {
  }

  lemma EvidenceTrip(e: EvidenceRecord, py: Py)
    requires Lawful(py) && IsEvidence(e)
    ensures EvidenceFrom(EvidenceTo(e), py) == e
  {
    CodeTrip(e.sourceType, EVIDENCE_SOURCE_TYPES, "web", py);
    CodeTrip(e.claimType, EVIDENCE_CLAIM_TYPES, "experience", py);
    CodeTrip(e.confidence, EVIDENCE_CONFIDENCE_LEVELS, "unverified", py);
  }

  ghost predicate IsVisitInfo(i: VisitInfo) {
    i.role in VISIT_ROLES && forall k | 0 <= k < |i.evidence| :: IsEvidence(i.evidence[k])
  }

  lemma VisitInfoTrip(v: Value, i: VisitInfo, py: Py)
    requires Lawful(py)
    ensures IsVisitInfo(VisitInfoFrom(v, py))
    ensures IsVisitInfo(i) ==> VisitInfoFrom(VisitInfoTo(i), py) == i
  {
    if v.Dict? && Get(v.m, Field.EvidenceList, Null).List? {
      var xs := Get(v.m, Field.EvidenceList, Null).xs;
      forall k | 0 <= k < |xs| ensures IsEvidence(EvidenceFrom(xs[k], py)) {
        EvidenceRead(xs[k], py);
      }
    }
    if IsVisitInfo(i) {
      var written := Mapped(EvidenceTo, i.evidence);
      forall k | 0 <= k < |i.evidence| ensures EvidenceFrom(written[k], py) == i.evidence[k] {
        EvidenceTrip(i.evidence[k], py);
      }
      assert Mapped(e => EvidenceFrom(e, py), written) == i.evidence;
    }
  }

  ghost predicate IsExcluded(e: ExcludedCandidate) {
    && e.category in EXCLUDED_CATEGORIES
    && (Truthy(e.reconsiderWhen) || e.reconsiderWhen == Null)
    && (Truthy(e.sourceCandidateId) || e.sourceCandidateId == Null)
  }

  lemma ExcludedTrip(v: Value, e: ExcludedCandidate, py: Py)
    requires Lawful(py)
    ensures IsExcluded(ExcludedFrom(v, py))
    ensures IsExcluded(e) ==> ExcludedFrom(ExcludedTo(e), py) == e
  {
  }

  lemma LocationTrip(l: Location, py: Py)
    requires Lawful(py)
    ensures LocationFrom(LocationTo(l), py) == l
  {
  }

  ghost predicate IsActivity(a: Activity) {
    && a.category != ""
    && (Truthy(a.cost) || a.cost == Int(0))
    && (Truthy(a.transportDurationMin) || a.transportDurationMin == Int(0))
    && (a.visitInfo.Some? ==> IsVisitInfo(a.visitInfo.value))
  }

  lemma ActivityRead(v: Value, py: Py)
    requires Lawful(py) && ActivityFrom(v, py).Ok?
    ensures IsActivity(ActivityFrom(v, py).value)
  {
    var info := Get(v.m, Field.VisitInfoField, Null);
    if info.Dict? { VisitInfoTrip(info, VisitInfoFrom(info, py), py); }
  }

  /** The entries of a written activity. */
  ghost predicate HoldsActivity(d: Record, a: Activity) {
    && Get(d, Field.Name, Str("")) == Str(a.name)
    && Get(d, Field.LocationField, Null) == LocationTo(a.location)
    && Get(d, Field.StartTime, Str("")) == Str(a.startTime)
    && Get(d, Field.EndTime, Str("")) == Str(a.endTime)
    && Get(d, Field.Category, Null) == Str(a.category)
    && Get(d, Field.Cost, Int(0)) == a.cost
    && Get(d, Field.TransportFromPrev, Null) == a.transportFromPrev
    && Get(d, Field.TransportDurationMin, Int(0)) == a.transportDurationMin
    && Get(d, Field.TransportEstimated, Bool(false)) == Bool(a.transportEstimated)
    && Get(d, Field.Notes, Str("")) == Str(a.notes)
    && Get(d, Field.VisitInfoField, Null) == if a.visitInfo.Some? then VisitInfoTo(a.visitInfo.value) else Null
  }

  lemma ActivityEntries(a: Activity)
    ensures ActivityTo(a).Dict? && HoldsActivity(ActivityTo(a).m, a)
  {
  }

  lemma ActivityFromEntries(d: Record, a: Activity, py: Py)
    requires Lawful(py) && IsActivity(a) && HoldsActivity(d, a)
    ensures ActivityFrom(Dict(d), py) == Ok(a)
  {
    LocationTrip(a.location, py);
    if a.visitInfo.Some? { VisitInfoTrip(Null, a.visitInfo.value, py); }
  }

  lemma ActivityTrip(a: Activity, py: Py)
    requires Lawful(py) && IsActivity(a)
    ensures ActivityFrom(ActivityTo(a), py) == Ok(a)
  {
    ActivityEntries(a);
    ActivityFromEntries(ActivityTo(a).m, a, py);
  }

  ghost predicate AreActivities(xs: seq<Activity>) {
    forall k | 0 <= k < |xs| :: IsActivity(xs[k])
  }

  lemma DayPlanRead(v: Value, py: Py)
    requires Lawful(py) && DayPlanFrom(v, py).Ok?
    ensures AreActivities(DayPlanFrom(v, py).value.activities)
  {
    var items := py.iter(Or(Get(v.m, Field.Activities, List([])), List([]))).value;
    var d := DayPlanFrom(v, py).value;
    forall k | 0 <= k < |d.activities| ensures IsActivity(d.activities[k]) {
      ActivityRead(items[k], py);
    }
  }

  lemma ListTrip<A>(read: Value -> Result<A>, write: A -> Value, xs: seq<A>, ys: seq<A>)
    requires |ys| == |xs| && forall i | 0 <= i < |xs| :: read(write(xs[i])) == Ok(ys[i])
    ensures TryMapped(read, Mapped(write, xs)) == Ok(ys)
  {
    var r := TryMapped(read, Mapped(write, xs));
    assert r.Ok?;
    assert r.value == ys;
  }

  lemma ActivitiesTrip(xs: seq<Activity>, py: Py)
    requires Lawful(py) && AreActivities(xs)
    ensures TryMapped(ActivityReader(py), Mapped(ActivityTo, xs)) == Ok(xs)
  {
    forall k | 0 <= k < |xs| ensures ActivityReader(py)(ActivityTo(xs[k])) == Ok(xs[k]) {
      ActivityTrip(xs[k], py);
    }
    ListTrip(ActivityReader(py), ActivityTo, xs, xs);
  }

  lemma DayPlanFromEntries(m: Record, d: DayPlan, items: seq<Value>, py: Py)
    requires Lawful(py)
    requires Get(m, Field.Day, Int(0)) == Int(d.day)
    requires Get(m, Field.Date, Str("")) == Str(d.date)
    requires Get(m, Field.Activities, List([])) == List(items)
    requires Get(m, Field.Tips, Str("")) == Str(d.tips) && Field.Notes !in m
    requires TryMapped(ActivityReader(py), items) == Ok(d.activities)
    ensures DayPlanFrom(Dict(m), py) == Ok(d)
  {
    assert Or(Get(m, Field.Activities, List([])), List([])) == List(items);
  }

  lemma DayPlanEntries(d: DayPlan, m: Record)
    requires DayPlanTo(d) == Dict(m)
    ensures Get(m, Field.Day, Int(0)) == Int(d.day)
    ensures Get(m, Field.Date, Str("")) == Str(d.date)
    ensures Get(m, Field.Activities, List([])) == List(Mapped(ActivityTo, d.activities))
    ensures Get(m, Field.Tips, Str("")) == Str(d.tips) && Field.Notes !in m
  {
  }

  lemma DayPlanTrip(d: DayPlan, py: Py)
    requires Lawful(py) && AreActivities(d.activities)
    ensures DayPlanFrom(DayPlanTo(d), py) == Ok(d)
  {
    ActivitiesTrip(d.activities, py);
    DayPlanEntries(d, DayPlanTo(d).m);
    DayPlanFromEntries(DayPlanTo(d).m, d, Mapped(ActivityTo, d.activities), py);
  }

  /** A source that survives: truthy, or exactly the empty text. */
  predicate StableSource(source: Value) { Truthy(source) || source == Str("") }

  /** What a source is after one trip. */
  function SettledSource(source: Value): Value { if Truthy(source) then source else Str("") }

  lemma ConstraintTrip(c: Constraint)
    ensures ConstraintFrom(ConstraintTo(c)) == Ok(c.(source := SettledSource(c.source)))
  {
  }

  lemma PreferenceTrip(p: Preference, py: Py)
    requires Lawful(py)
    ensures PreferenceFrom(PreferenceTo(p), py) == Ok(p.(source := SettledSource(p.source)))
  {
  }

  lemma DateRangeTrip(r: DateRange)
    ensures Truthy(DateRangeTo(r)) && DateRangeFrom(DateRangeTo(r)) == Ok(r)
  {
    assert Field.Start in DateRangeTo(r).m;
  }

  lemma TravelersTrip(t: Travelers)
    ensures Truthy(TravelersTo(t)) && TravelersFrom(TravelersTo(t)) == Ok(t)
  {
    assert Field.Adults in TravelersTo(t).m;
  }

  lemma BudgetTrip(b: Budget)
    ensures Truthy(BudgetTo(b)) && BudgetFrom(BudgetTo(b)) == Ok(b)
  {
    assert Field.Total in BudgetTo(b).m;
  }

  lemma AccommodationTrip(a: Accommodation)
    ensures Truthy(AccommodationTo(a)) && AccommodationFrom(AccommodationTo(a)) == Ok(a)
  {
    assert Field.Area in AccommodationTo(a).m;
  }

  lemma BacktrackTrip(e: BacktrackEvent)
    ensures BacktrackFrom(BacktrackTo(e)) == Ok(e)
  {
  }
}
