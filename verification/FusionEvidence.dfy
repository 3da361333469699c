/** What the fused evidence of an id records of the lanes, and that it does not depend on their order. */
module FusionEvidence {
  import opened Basics
  import opened Evidence
  import opened FusionSpec
  import opened Ordering

  // ----- lanes, ranks and contributions

  /** A lane's hits mention no other lane. */
  ghost predicate OwnOnly(lane: LaneView) {
    forall c | c in lane.candidates ::
      && (forall m | m in c.evidence.lanes :: m == lane.name)
      && c.evidence.laneRanks.Keys <= {lane.name}
      && c.evidence.laneScores.Keys <= {lane.name}
  }

  ghost predicate DistinctNames(lanes: seq<LaneView>) {
    forall i, j | 0 <= i < j < |lanes| :: lanes[i].name != lanes[j].name
  }

  predicate Named(lane: LaneView, name: string, id: string, config: FusionConfig) {
    lane.name == name && Contributes(lane, id, config)
  }

  /** The evidence knows the lane with the id's rank in it and the lane's share of the score. */
  predicate Records(e: EvidenceView, lane: LaneView, id: string, config: FusionConfig)
    requires Contributes(lane, id, config)
  {
    && lane.name in e.lanes
    && lane.name in e.laneRanks && e.laneRanks[lane.name] == Rank(Ids(lane.candidates), id)
    && lane.name in e.laneScores && e.laneScores[lane.name] == LaneShare(lane, id, config)
  }

  predicate Mentions(e: EvidenceView, name: string) {
    name in e.lanes || name in e.laneRanks || name in e.laneScores
  }

  /** A lane's visit brings no mention but its own. */
  lemma MetMentions(entry: Option<Fused>, lane: LaneView, config: FusionConfig, id: string, name: string)
    requires OwnOnly(lane)
    requires var met := Met(entry, lane, id, config); met.Some? && Mentions(met.value.evidence, name)
    ensures Named(lane, name, id, config) || (entry.Some? && Mentions(entry.value.evidence, name))
  {
    if Contributes(lane, id, config) { assert Hit(lane, id) in lane.candidates; }
  }

  lemma {:induction false} MentionsAreLanes(lanes: seq<LaneView>, config: FusionConfig, id: string, name: string)
    requires forall lane | lane in lanes :: OwnOnly(lane)
    ensures var entry := Entry(lanes, id, config);
            entry.Some? && Mentions(entry.value.evidence, name) ==>
              SomeLane(lanes, x => Named(x, name, id, config))
  {
    if lanes == [] {
    } else {
      var before, last := lanes[..|lanes| - 1], lanes[|lanes| - 1];
      var entry := Entry(lanes, id, config);
      assert last in lanes;
      MentionsAreLanes(before, config, id, name);
      SomeSplits(lanes, x => Named(x, name, id, config));
      if entry.Some? && Mentions(entry.value.evidence, name) {
        MetMentions(Entry(before, id, config), last, config, id, name);
      }
    }
  }

  /** Every lane that holds the id is recorded with its rank and share, and no other lane is mentioned. */
  lemma {:induction false} EvidenceRecordsLanes(lanes: seq<LaneView>, config: FusionConfig, id: string)
    requires DistinctNames(lanes) && forall lane | lane in lanes :: OwnOnly(lane)
    ensures var entry := Entry(lanes, id, config);
            && (forall lane | lane in lanes && Contributes(lane, id, config) ::
                  entry.Some? && Records(entry.value.evidence, lane, id, config))
            && (forall name | entry.Some? && Mentions(entry.value.evidence, name) ::
                  SomeLane(lanes, x => Named(x, name, id, config)))
  {
    var entry := Entry(lanes, id, config);
    forall name | entry.Some? && Mentions(entry.value.evidence, name)
      ensures SomeLane(lanes, x => Named(x, name, id, config))
    {
      MentionsAreLanes(lanes, config, id, name);
    }
    if lanes == [] {
    } else {
      var before, last := lanes[..|lanes| - 1], lanes[|lanes| - 1];
      assert lanes == before + [last];
      EvidenceRecordsLanes(before, config, id);
      forall lane | lane in before && Contributes(lane, id, config)
        ensures entry.Some? && Records(entry.value.evidence, lane, id, config)
      {
        assert lane.name != last.name;
      }
    }
  }

  /** The share recorded for a lane is the quotient of the lane's weight by the constant plus the id's rank. */
  lemma RecordedShare(lanes: seq<LaneView>, config: FusionConfig, id: string, lane: LaneView)
    requires DistinctNames(lanes) && forall l | l in lanes :: OwnOnly(l)
    requires lane in lanes && Weight(config.laneWeights, lane.name) > 0.0 && id in Ids(lane.candidates)
    requires config.rrfK + Rank(Ids(lane.candidates), id) != 0
    ensures var entry := Entry(lanes, id, config);
      && entry.Some? && lane.name in entry.value.evidence.laneScores && lane.name in entry.value.evidence.laneRanks
      && entry.value.evidence.laneRanks[lane.name] == Rank(Ids(lane.candidates), id)
      && entry.value.evidence.laneScores[lane.name]
         == Weight(config.laneWeights, lane.name) / (config.rrfK + Rank(Ids(lane.candidates), id)) as real
  {
    EvidenceRecordsLanes(lanes, config, id);
  }

  /** Two lanes of one name in a rearrangement would be two in the original. */
  lemma NamesStayDistinct(a: seq<LaneView>, b: seq<LaneView>)
    requires multiset(a) == multiset(b) && DistinctNames(a)
    ensures DistinctNames(b)
  {
    forall i, j | 0 <= i < j < |b| ensures b[i].name != b[j].name {
      SameElements(a, b, b[i]);
      SameElements(a, b, b[j]);
      if b[i] == b[j] {
        TwiceCounts(b, i, j);
        DistinctCount(a, b[i]);
      }
    }
  }

  lemma TwiceCounts<T>(s: seq<T>, i: nat, j: nat)
    requires i < j < |s| && s[i] == s[j]
    ensures multiset(s)[s[i]] >= 2
  {
    assert s == s[..i] + [s[i]] + s[i + 1..j] + [s[j]] + s[j + 1..];
  }

  // ----- what merging collects

  /** A fact that holds of merged evidence iff it holds of one of the two, and does not depend on the recorded lanes. */
  ghost predicate Additive(q: EvidenceView -> bool) {
    && (forall e, f :: q(Merged(e, f)) <==> q(e) || q(f))
    && (forall e, lane, rank, share :: q(Ranked(e, lane, rank, share)) <==> q(e))
    && (forall e: EvidenceView, score :: q(e.(fusedScore := score)) <==> q(e))
  }

  predicate Brings(lane: LaneView, q: EvidenceView -> bool, id: string, config: FusionConfig) {
    Contributes(lane, id, config) && q(Hit(lane, id).evidence)
  }

  /** Such a fact holds of the entry iff it holds of the id's first hit in some lane. */
  lemma {:induction false} EntryCollects(lanes: seq<LaneView>, q: EvidenceView -> bool, config: FusionConfig,
                                         id: string)
    requires Additive(q)
    ensures var entry := Entry(lanes, id, config);
            entry.Some? && q(entry.value.evidence) <==> SomeLane(lanes, x => Brings(x, q, id, config))
  {
    if lanes == [] {
    } else {
      EntryCollects(lanes[..|lanes| - 1], q, config, id);
      SomeSplits(lanes, x => Brings(x, q, id, config));
    }
  }

  lemma CollectsInAnyOrder(a: seq<LaneView>, b: seq<LaneView>, q: EvidenceView -> bool, config: FusionConfig,
                           id: string)
    requires multiset(a) == multiset(b) && Additive(q)
    ensures var entry, other := Entry(a, id, config), Entry(b, id, config);
            entry.Some? && q(entry.value.evidence) <==> other.Some? && q(other.value.evidence)
  {
    EntryCollects(a, q, config, id);
    EntryCollects(b, q, config, id);
    SomeLaneMoves(a, b, x => Brings(x, q, id, config));
  }

  predicate AtLeast(score: Option<real>, bound: real) { score.Some? && score.value >= bound }

  /** Equal lower bounds, equal scores. */
  lemma BoundsDecide(x: Option<real>, y: Option<real>)
    requires forall bound :: AtLeast(x, bound) <==> AtLeast(y, bound)
    ensures x == y
  {
    if x.Some? { assert AtLeast(x, x.value); }
    if y.Some? { assert AtLeast(y, y.value); }
  }

  function MatchesDomain(term: string): EvidenceView -> bool { (e: EvidenceView) => term in e.matchedDomains }
  function MatchesKeyword(term: string): EvidenceView -> bool { (e: EvidenceView) => term in e.matchedKeywords }
  function MatchesEntity(term: string): EvidenceView -> bool { (e: EvidenceView) => term in e.matchedEntities }
  function SemanticFrom(bound: real): EvidenceView -> bool { (e: EvidenceView) => AtLeast(e.semanticScore, bound) }
  function LexicalFrom(bound: real): EvidenceView -> bool { (e: EvidenceView) => AtLeast(e.lexicalScore, bound) }
  function TemporalFrom(bound: real): EvidenceView -> bool { (e: EvidenceView) => AtLeast(e.temporalScore, bound) }

  lemma TermsAreAdditive(term: string)
    ensures Additive(MatchesDomain(term)) && Additive(MatchesKeyword(term)) && Additive(MatchesEntity(term))
  {
    forall e: EvidenceView, f: EvidenceView
      ensures term in Merged(e, f).matchedDomains <==> term in e.matchedDomains || term in f.matchedDomains
      ensures term in Merged(e, f).matchedKeywords <==> term in e.matchedKeywords || term in f.matchedKeywords
      ensures term in Merged(e, f).matchedEntities <==> term in e.matchedEntities || term in f.matchedEntities
    {
      AppendUniqueIsUnion(e.matchedDomains, f.matchedDomains);
      AppendUniqueIsUnion(e.matchedKeywords, f.matchedKeywords);
      AppendUniqueIsUnion(e.matchedEntities, f.matchedEntities);
    }
  }

  lemma SemanticIsAdditive(bound: real)
    ensures Additive(SemanticFrom(bound))
  {
  }

  lemma LexicalIsAdditive(bound: real)
    ensures Additive(LexicalFrom(bound))
  {
  }

  lemma TemporalIsAdditive(bound: real)
    ensures Additive(TemporalFrom(bound))
  {
  }

  /** Merging keeps identity, lanes and fused score of the entry; a match type comes from the hit only where the entry
      has none; a reason is added only if it is new. */
  lemma MergeSays(entry: EvidenceView, hit: EvidenceView)
    ensures var m := Merged(entry, hit);
      && m.itemId == entry.itemId && m.source == entry.source && m.lanes == entry.lanes
      && m.laneScores == entry.laneScores && m.laneRanks == entry.laneRanks && m.fusedScore == entry.fusedScore
      && m.destinationMatchType
         == (if (entry.destinationMatchType == "" || entry.destinationMatchType == "none")
                && hit.destinationMatchType != "" && hit.destinationMatchType != "none"
             then hit.destinationMatchType else entry.destinationMatchType)
      && (hit.retrievalReason == "" ==> m.retrievalReason == entry.retrievalReason)
      && (entry.retrievalReason == "" && hit.retrievalReason != "" && hit.retrievalReason !in ReasonsOf("") ==>
            m.retrievalReason == hit.retrievalReason)
      && (entry.retrievalReason != "" && hit.retrievalReason != ""
          && hit.retrievalReason !in ReasonsOf(entry.retrievalReason) ==>
            m.retrievalReason == entry.retrievalReason + "; " + hit.retrievalReason)
      && (hit.retrievalReason in ReasonsOf(entry.retrievalReason) ==> m.retrievalReason == entry.retrievalReason)
  {
  }

  // ----- the order of the lanes

  /** The same lanes, with their ranks and shares. */
  ghost predicate SameLanes(e: EvidenceView, f: EvidenceView) {
    && (forall x :: x in e.lanes <==> x in f.lanes)
    && e.laneRanks == f.laneRanks
    && e.laneScores == f.laneScores
  }

  /** Both know the lane, and know the same of it. */
  predicate Agree(e: EvidenceView, f: EvidenceView, name: string) {
    && name in e.lanes && name in f.lanes
    && name in e.laneRanks && name in f.laneRanks && e.laneRanks[name] == f.laneRanks[name]
    && name in e.laneScores && name in f.laneScores && e.laneScores[name] == f.laneScores[name]
  }

  /** The same best scores, and the same terms matched. */
  ghost predicate SameFindings(e: EvidenceView, f: EvidenceView) {
    && e.semanticScore == f.semanticScore && e.lexicalScore == f.lexicalScore && e.temporalScore == f.temporalScore
    && (forall x :: x in e.matchedDomains <==> x in f.matchedDomains)
    && (forall x :: x in e.matchedKeywords <==> x in f.matchedKeywords)
    && (forall x :: x in e.matchedEntities <==> x in f.matchedEntities)
  }

  lemma TermsInAnyOrder(a: seq<LaneView>, b: seq<LaneView>, config: FusionConfig, id: string, term: string)
    requires multiset(a) == multiset(b)
    requires Entry(a, id, config).Some? && Entry(b, id, config).Some?
    ensures var e, f := Entry(a, id, config).value.evidence, Entry(b, id, config).value.evidence;
            && (term in e.matchedDomains <==> term in f.matchedDomains)
            && (term in e.matchedKeywords <==> term in f.matchedKeywords)
            && (term in e.matchedEntities <==> term in f.matchedEntities)
  {
    TermsAreAdditive(term);
    CollectsInAnyOrder(a, b, MatchesDomain(term), config, id);
    CollectsInAnyOrder(a, b, MatchesKeyword(term), config, id);
    CollectsInAnyOrder(a, b, MatchesEntity(term), config, id);
  }

  lemma BoundsInAnyOrder(a: seq<LaneView>, b: seq<LaneView>, config: FusionConfig, id: string, bound: real)
    requires multiset(a) == multiset(b)
    requires Entry(a, id, config).Some? && Entry(b, id, config).Some?
    ensures var e, f := Entry(a, id, config).value.evidence, Entry(b, id, config).value.evidence;
            && (AtLeast(e.semanticScore, bound) <==> AtLeast(f.semanticScore, bound))
            && (AtLeast(e.lexicalScore, bound) <==> AtLeast(f.lexicalScore, bound))
            && (AtLeast(e.temporalScore, bound) <==> AtLeast(f.temporalScore, bound))
  {
    SemanticIsAdditive(bound);
    LexicalIsAdditive(bound);
    TemporalIsAdditive(bound);
    CollectsInAnyOrder(a, b, SemanticFrom(bound), config, id);
    CollectsInAnyOrder(a, b, LexicalFrom(bound), config, id);
    CollectsInAnyOrder(a, b, TemporalFrom(bound), config, id);
  }

  lemma CollectedInAnyOrder(a: seq<LaneView>, b: seq<LaneView>, config: FusionConfig, id: string)
    requires multiset(a) == multiset(b)
    requires Entry(a, id, config).Some? && Entry(b, id, config).Some?
    ensures SameFindings(Entry(a, id, config).value.evidence, Entry(b, id, config).value.evidence)
  {
    var e, f := Entry(a, id, config).value.evidence, Entry(b, id, config).value.evidence;
    forall term
      ensures term in e.matchedDomains <==> term in f.matchedDomains
      ensures term in e.matchedKeywords <==> term in f.matchedKeywords
      ensures term in e.matchedEntities <==> term in f.matchedEntities
    {
      TermsInAnyOrder(a, b, config, id, term);
    }
    forall bound
      ensures AtLeast(e.semanticScore, bound) <==> AtLeast(f.semanticScore, bound)
      ensures AtLeast(e.lexicalScore, bound) <==> AtLeast(f.lexicalScore, bound)
      ensures AtLeast(e.temporalScore, bound) <==> AtLeast(f.temporalScore, bound)
    {
      BoundsInAnyOrder(a, b, config, id, bound);
    }
    BoundsDecide(e.semanticScore, f.semanticScore);
    BoundsDecide(e.lexicalScore, f.lexicalScore);
    BoundsDecide(e.temporalScore, f.temporalScore);
  }

  /** Whatever one order records, the other does too. */
  lemma RecordedElsewhere(a: seq<LaneView>, b: seq<LaneView>, config: FusionConfig, id: string, name: string)
    requires multiset(a) == multiset(b) && DistinctNames(a) && DistinctNames(b)
    requires (forall lane | lane in a :: OwnOnly(lane)) && (forall lane | lane in b :: OwnOnly(lane))
    requires Entry(a, id, config).Some? && Mentions(Entry(a, id, config).value.evidence, name)
    ensures exists lane :: Named(lane, name, id, config)
              && Records(Entry(a, id, config).value.evidence, lane, id, config)
              && Entry(b, id, config).Some? && Records(Entry(b, id, config).value.evidence, lane, id, config)
  {
    EvidenceRecordsLanes(a, config, id);
    EvidenceRecordsLanes(b, config, id);
    var i :| 0 <= i < |a| && Named(a[i], name, id, config);
    SameElements(a, b, a[i]);
    assert Named(a[i], name, id, config);
  }

  lemma AgreementIsSameness(e: EvidenceView, f: EvidenceView)
    requires forall name | Mentions(e, name) || Mentions(f, name) :: Agree(e, f, name)
    ensures SameLanes(e, f)
  {
    assert forall name | name in e.lanes || name in f.lanes :: Mentions(e, name) || Mentions(f, name);
    assert forall name | name in e.laneRanks || name in f.laneRanks :: Mentions(e, name) || Mentions(f, name);
    assert forall name | name in e.laneScores || name in f.laneScores :: Mentions(e, name) || Mentions(f, name);
  }

  lemma RecordedInAnyOrder(a: seq<LaneView>, b: seq<LaneView>, config: FusionConfig, id: string)
    requires multiset(a) == multiset(b) && DistinctNames(a) && DistinctNames(b)
    requires (forall lane | lane in a :: OwnOnly(lane)) && (forall lane | lane in b :: OwnOnly(lane))
    requires Entry(a, id, config).Some? && Entry(b, id, config).Some?
    ensures SameLanes(Entry(a, id, config).value.evidence, Entry(b, id, config).value.evidence)
  {
    var e, f := Entry(a, id, config).value.evidence, Entry(b, id, config).value.evidence;
    forall name | Mentions(e, name) || Mentions(f, name)
      ensures Agree(e, f, name)
    {
      if Mentions(e, name) {
        RecordedElsewhere(a, b, config, id, name);
      } else {
        RecordedElsewhere(b, a, config, id, name);
      }
    }
    AgreementIsSameness(e, f);
  }

  /** Lanes of distinct names may come in any order: an id has an entry in both or neither, with the same score, the
      same lanes, ranks and shares, the same best scores and the same matched terms. */
  lemma EvidenceIgnoresLaneOrder(a: seq<LaneView>, b: seq<LaneView>, config: FusionConfig, id: string)
    requires multiset(a) == multiset(b) && DistinctNames(a) && forall lane | lane in a :: OwnOnly(lane)
    ensures var ea, eb := AbsorbLanes(a, config).byId, AbsorbLanes(b, config).byId;
            && (id in ea <==> id in eb)
            && (id in ea ==>
                  && ea[id].evidence.fusedScore == eb[id].evidence.fusedScore
                  && SameLanes(ea[id].evidence, eb[id].evidence)
                  && SameFindings(ea[id].evidence, eb[id].evidence))
  {
    NamesStayDistinct(a, b);
    forall lane | lane in b ensures OwnOnly(lane) { SameElements(a, b, lane); }
    EntriesAreFolds(a, config, id);
    EntriesAreFolds(b, config, id);
    FusedScoreIsRrfSum(a, config, id);
    FusedScoreIsRrfSum(b, config, id);
    ScoreIgnoresOrder(a, b, id, config);
    SomeLaneMoves(a, b, x => Contributes(x, id, config));
    if id in AbsorbLanes(a, config).byId {
      RecordedInAnyOrder(a, b, config, id);
      CollectedInAnyOrder(a, b, config, id);
    }
  }

  function RanksIn(entry: Option<Fused>): map<string, int> {
    if entry.Some? then entry.value.evidence.laneRanks else map[]
  }

  lemma MetRanks(entry: Option<Fused>, lane: LaneView, config: FusionConfig, id: string)
    requires Contributes(lane, id, config) && OwnOnly(lane) && RanksIn(entry).Keys <= {lane.name}
    ensures RanksIn(Met(entry, lane, id, config)) == map[lane.name := Rank(Ids(lane.candidates), id)]
  {
    assert Hit(lane, id) in lane.candidates;
  }

  lemma EntrySnoc(lanes: seq<LaneView>, lane: LaneView, config: FusionConfig, id: string)
    ensures Entry(lanes + [lane], id, config) == Met(Entry(lanes, id, config), lane, id, config)
  {
    assert (lanes + [lane])[..|lanes|] == lanes;
  }

  lemma RanksOfTwo(x: LaneView, y: LaneView, config: FusionConfig, id: string)
    requires x.name == y.name && Contributes(x, id, config) && Contributes(y, id, config)
    requires OwnOnly(x) && OwnOnly(y)
    ensures RanksIn(Entry([x, y], id, config)) == map[y.name := Rank(Ids(y.candidates), id)]
  {
    assert [x] == [] + [x] && [x, y] == [x] + [y];
    EntrySnoc([], x, config, id);
    EntrySnoc([x], y, config, id);
    MetRanks(Entry([], id, config), x, config, id);
    MetRanks(Entry([x], id, config), y, config, id);
  }

  /** Distinct names are needed: of two lanes of one name the later one's rank stays. */
  lemma SwappedNamesakes(x: LaneView, y: LaneView, config: FusionConfig, id: string)
    requires x.name == y.name && Contributes(x, id, config) && Contributes(y, id, config)
    requires OwnOnly(x) && OwnOnly(y)
    ensures RanksIn(Entry([x, y], id, config)) == RanksIn(Entry([y, x], id, config))
            <==> Rank(Ids(x.candidates), id) == Rank(Ids(y.candidates), id)
  {
    var one, other := map[y.name := Rank(Ids(y.candidates), id)], map[x.name := Rank(Ids(x.candidates), id)];
    RanksOfTwo(x, y, config, id);
    RanksOfTwo(y, x, config, id);
    assert one == other <==> one[y.name] == other[y.name];
  }
}
