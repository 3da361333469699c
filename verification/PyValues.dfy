/** The JSON-like values that Python code passes around untyped. */
module PyValues {

  /** The keys of a dict: the names the code looks up, and any other text. */
  datatype Field =
    // tool results
    | Answer | Results | ResultsOmittedCount | Title | Url | ContentText | Score
    | NoteId | LikedCount | NoteType | Desc | CollectedCount | CommentCount | Tags | Nickname | LikeCount
    | OperationName | NoteBody | Items | ItemsOmittedCount | Comments | CommentsOmittedCount
    // evidence, visit info, excluded candidates
    | SourceType | Summary | ClaimType | Confidence | SourceUrl | ObservedAt | SourceRef
    | Role | RecommendationReason | NeedsRecheck | EvidenceList
    | Name | Reason | Category | ReconsiderWhen | SourceCandidateId
    // locations, dates, people, money
    | Lat | Lng | Address | Start | End | Adults | Children | Total | Currency | Area | Hotel
    // days and activities
    | LocationField | StartTime | EndTime | Cost | TransportFromPrev | TransportDurationMin | TransportEstimated
    | Notes | VisitInfoField | Day | Date | Activities | Tips
    // constraints, preferences, backtracks
    | Type | Description | Source | Key | Val | FromPhase | ToPhase | SnapshotPath | Timestamp
    // the plan
    | SessionId | TripId | Phase | Destination | Dates | Phase2Step | TripBrief | CandidatePool | Shortlist
    | ExcludedCandidates | SkeletonPlans | SelectedSkeletonId | TransportOptions | SelectedTransport
    | AccommodationOptions | TravelersField | BudgetField | AccommodationField | Risks | Alternatives | DailyPlans
    | Deliverables
    | Constraints | Preferences | DecisionEvents | LessonEvents | BacktrackHistory | CreatedAt | LastUpdated | Version
    // skeletons and the trip brief
    | Id | Days | Goal | Pace | TotalDays | DepartureCity | City | From | Kind | Content
    | Other(text: string)

  /** A dict is a map: its insertion order is not observable through equality. */
  datatype Value =
    | Null
    | Bool(b: bool)
    | Int(n: int)
    | Float(r: real)
    | Str(s: string)
    | List(xs: seq<Value>)
    | Dict(m: map<Field, Value>)

  type Record = map<Field, Value>

  predicate Truthy(v: Value) {
    match v
    case Null => false
    case Bool(b) => b
    case Int(n) => n != 0
    case Float(r) => r != 0.0
    case Str(s) => s != ""
    case List(xs) => xs != []
    case Dict(m) => m != map[]
  }

  /** `d.get(key, default)` */
  function Get(d: Record, key: Field, default: Value): Value {
    if key in d then d[key] else default
  }

  /** `a or b` */
  function Or(a: Value, b: Value): Value {
    if Truthy(a) then a else b
  }
}
