/** `fuse_lane_results` over evidence objects: the dictionary it fills, the objects it updates,
    and the capped ranking it returns. */
module Fusion {
  import opened Caps
  import opened Evidence
  import opened FusionSpec
  import opened Ordering
  import opened RecallModels
  import opened Sequences

  datatype Stage3Candidate = Stage3Candidate(candidate: RecallCandidate, evidence: RetrievalEvidence)

  datatype LaneResult = LaneResult(laneName: string, candidates: seq<Stage3Candidate>)

  datatype FuseResult = Ranking(candidates: seq<Stage3Candidate>) | ZeroDivision

  // ----- object graphs and the values they stand for

  ghost function ViewOf(c: Stage3Candidate): Fused
    reads c.evidence
  {
    Fused(c.candidate, c.evidence.View())
  }

  ghost function ViewsOf(cs: seq<Stage3Candidate>): (r: seq<Fused>)
    reads set c | c in cs :: c.evidence
    ensures |r| == |cs|
    ensures forall i | 0 <= i < |cs| :: r[i] == ViewOf(cs[i])
  {
    if cs == [] then [] else ViewsOf(cs[..|cs| - 1]) + [ViewOf(cs[|cs| - 1])]
  }

  ghost function LaneViewOf(lane: LaneResult): LaneView
    reads set c | c in lane.candidates :: c.evidence
  {
    LaneView(lane.laneName, ViewsOf(lane.candidates))
  }

  ghost function LaneViewsOf(lanes: seq<LaneResult>): (r: seq<LaneView>)
    reads set l, c | l in lanes && c in l.candidates :: c.evidence
    ensures |r| == |lanes|
    ensures forall i | 0 <= i < |lanes| :: r[i] == LaneViewOf(lanes[i])
  {
    if lanes == [] then [] else LaneViewsOf(lanes[..|lanes| - 1]) + [LaneViewOf(lanes[|lanes| - 1])]
  }

  type Dict = map<string, Stage3Candidate>

  /** The dictionary holds the state's entries, each with an evidence object of its own. */
  ghost predicate Represents(fused: Dict, owned: set<RetrievalEvidence>, st: FuseState)
    reads owned
  {
    && fused.Keys == st.byId.Keys
    && (forall id | id in fused ::
          && fused[id].evidence in owned
          && fused[id].candidate == st.byId[id].candidate
          && fused[id].evidence.View() == st.byId[id].evidence)
    && (forall a, b | a in fused && b in fused && a != b :: fused[a].evidence != fused[b].evidence)
  }

  // ----- the code

  /** The entry for a hit: a fresh copy, or the existing entry with the hit's evidence merged in. */
  method AdmitHit(fusedById: Dict, order: seq<string>, ghost owned: set<RetrievalEvidence>, ghost st: FuseState,
                  hit: Stage3Candidate, ghost hitView: Fused)
    returns (fused: Dict, order': seq<string>, ghost owned': set<RetrievalEvidence>)
    requires Represents(fusedById, owned, st) && order == st.order
    requires hit.evidence !in owned && hitView == ViewOf(hit)
    modifies owned
    ensures Represents(fused, owned', Admitted(st, hitView)) && order' == Admitted(st, hitView).order
    ensures hit.candidate.itemId in fused
    ensures owned <= owned' && fresh(owned' - owned)
  {
    var id := hit.candidate.itemId;
    fused, order', owned' := fusedById, order, owned;
    if id !in fused {
      var copy := new RetrievalEvidence.CopyOf(hit.evidence);
      fused := fused[id := Stage3Candidate(hit.candidate, copy)];
      order', owned' := order + [id], owned + {copy};
    } else {
      var evidence := fused[id].evidence;
      evidence.MergeFrom(hit.evidence);
      assert forall x | x in fused && x != id :: fused[x].evidence != evidence;
    }
  }

  /** Rank, contribution and score go into the entry's evidence. */
  method RecordInEntry(fused: Dict, ghost owned: set<RetrievalEvidence>, ghost st: FuseState, id: string, lane: string,
                       rank: nat, contribution: real)
    requires Represents(fused, owned, st) && id in fused
    modifies fused[id].evidence
    ensures Represents(fused, owned, Marked(st, id, lane, rank, contribution))
  {
    var evidence := fused[id].evidence;
    evidence.RecordHit(lane, rank, contribution);
    assert forall x | x in fused && x != id :: fused[x].evidence != evidence;
  }

  /** The body of the inner loop for a candidate whose id is new in its lane. */
  method AbsorbHit(fusedById: Dict, order: seq<string>, ghost owned: set<RetrievalEvidence>, ghost st: FuseState,
                   hit: Stage3Candidate, ghost hitView: Fused, lane: string, rank: nat, weight: real, rrfK: int)
    returns (fused: Dict, order': seq<string>, ghost owned': set<RetrievalEvidence>)
    requires Represents(fusedById, owned, st) && order == st.order
    requires hit.evidence !in owned && hitView == ViewOf(hit)
    requires rrfK + rank != 0
    modifies owned
    ensures var next := Absorb(st, lane, weight, rrfK, rank, hitView);
            Represents(fused, owned', next) && order' == next.order
    ensures var id := hit.candidate.itemId;
      && id in fused && lane in fused[id].evidence.laneScores
      && fused[id].evidence.laneScores[lane] == weight / (rrfK + rank) as real
    ensures owned <= owned' && fresh(owned' - owned)
  {
    var contribution := weight / (rrfK + rank) as real;
    fused, order', owned' := AdmitHit(fusedById, order, owned, st, hit, hitView);
    RecordInEntry(fused, owned', Admitted(st, hitView), hit.candidate.itemId, lane, rank, contribution);
  }

  function CandidateSources(cs: seq<Stage3Candidate>): (r: seq<string>)
    ensures |r| == |cs|
    ensures forall i | 0 <= i < |r| :: r[i] == cs[i].candidate.source
  {
    seq(|cs|, i requires 0 <= i < |cs| => cs[i].candidate.source)
  }

  /** Where the capping loop stands after n candidates. */
  ghost predicate CappedAt(ranked: seq<Stage3Candidate>, n: nat, config: CapConfig, capped: seq<Stage3Candidate>,
                           profileCount: nat, sliceCount: nat)
    requires n <= |ranked|
  {
    var sources := CandidateSources(ranked);
    var picks := GreedyPicks(sources, n, config);
    && IsSelection(picks, n)
    && capped == Pick(ranked, picks)
    && profileCount == BelowFrom(sources, picks, PROFILE, n)
    && sliceCount == BelowFrom(sources, picks, EPISODE_SLICE, n)
  }

  lemma CapStep(ranked: seq<Stage3Candidate>, n: nat, config: CapConfig, capped: seq<Stage3Candidate>,
                profileCount: nat, sliceCount: nat)
    requires n < |ranked| && CappedAt(ranked, n, config, capped, profileCount, sliceCount)
             && |capped| < config.maxCandidates
    ensures var source := ranked[n].candidate.source;
      var full := (source == PROFILE && profileCount >= config.maxProfile)
                  || (source == EPISODE_SLICE && sliceCount >= config.maxSlice);
      if full then CappedAt(ranked, n + 1, config, capped, profileCount, sliceCount)
      else CappedAt(ranked, n + 1, config, capped + [ranked[n]],
                    if source == PROFILE then profileCount + 1 else profileCount,
                    if source == EPISODE_SLICE then sliceCount + 1 else sliceCount)
  {
    var sources := CandidateSources(ranked);
    SourcesDiffer();
    GreedyStep(sources, n, config, PROFILE);
    GreedyStep(sources, n, config, EPISODE_SLICE);
    PickSnoc(ranked, GreedyPicks(sources, n, config), n);
  }

  /** The caps keep exactly the greedy picks of the ranking. */
  method ApplyCaps(ranked: seq<Stage3Candidate>, config: CapConfig) returns (capped: seq<Stage3Candidate>)
    ensures var picks := GreedyPicks(CandidateSources(ranked), |ranked|, config);
            && (forall i | 0 <= i < |picks| :: picks[i] < |ranked|)
            && capped == Pick(ranked, picks)
  {
    capped := [];
    var profileCount: nat, sliceCount: nat := 0, 0;
    SourcesDiffer();
    for n := 0 to |ranked|
      invariant CappedAt(ranked, n, config, capped, profileCount, sliceCount)
    {
      if |capped| >= config.maxCandidates {
        GreedyStops(CandidateSources(ranked), n, |ranked|, config);
        break;
      }
      var source := ranked[n].candidate.source;
      CapStep(ranked, n, config, capped, profileCount, sliceCount);
      if source == PROFILE {
        if profileCount >= config.maxProfile {
          continue;
        }
        profileCount := profileCount + 1;
      } else if source == EPISODE_SLICE {
        if sliceCount >= config.maxSlice {
          continue;
        }
        sliceCount := sliceCount + 1;
      }
      capped := capped + [ranked[n]];
    }
  }

  lemma {:induction false} GreedyStops(sources: seq<string>, n: nat, m: nat, config: CapConfig)
    requires n <= m <= |sources|
    requires |GreedyPicks(sources, n, config)| >= config.maxCandidates
    ensures GreedyPicks(sources, m, config) == GreedyPicks(sources, n, config)
  {
    if n >= m {
    } else {
      GreedyStops(sources, n, m - 1, config);
    }
  }

  method ReadKeys(fused: Dict, order: seq<string>, ghost owned: set<RetrievalEvidence>, ghost st: FuseState)
    returns (keys: seq<Key>)
    requires Represents(fused, owned, st) && order == st.order && Keyed(st)
    ensures keys == Keys(st)
  {
    keys := [];
    for i := 0 to |order|
      invariant |keys| == i
      invariant forall j | 0 <= j < i :: keys[j] == KeyOf(st.byId[order[j]])
    {
      var c := fused[order[i]];
      var e := c.evidence;
      assert e.View() == st.byId[order[i]].evidence;
      keys := keys + [Key(e.fusedScore, SYMBOLIC in e.lanes, c.candidate.source, c.candidate.itemId)];
    }
  }

  /** Sorting the dictionary's values by their keys. Ids are distinct, so a key names its value. */
  method RankValues(fused: Dict, order: seq<string>, ghost owned: set<RetrievalEvidence>, ghost st: FuseState)
    returns (ranked: seq<Stage3Candidate>)
    requires Represents(fused, owned, st) && order == st.order && Keyed(st)
    ensures var keys := SortBy(Keys(st), KeyLe);
            && |ranked| == |keys|
            && forall i | 0 <= i < |keys| ::
                 && keys[i].itemId in fused
                 && ranked[i] == fused[keys[i].itemId]
                 && ranked[i].candidate.source == keys[i].source
  {
    var unsorted := ReadKeys(fused, order, owned, st);
    var keys := SortBy(unsorted, KeyLe);
    forall i | 0 <= i < |keys|
      ensures keys[i].itemId in fused && fused[keys[i].itemId].candidate.source == keys[i].source
    {
      SameElements(keys, unsorted, keys[i]);
      KeyIsOwn(st, keys[i]);
    }
    ranked := seq(|keys|, i requires 0 <= i < |keys| && keys[i].itemId in fused => fused[keys[i].itemId]);
  }

  /** The lane's objects currently stand for the values in `lane`. */
  ghost predicate LaneIs(laneResult: LaneResult, lane: LaneView)
    reads set c | c in laneResult.candidates :: c.evidence
  {
    && lane.name == laneResult.laneName
    && |lane.candidates| == |laneResult.candidates|
    && forall i | 0 <= i < |lane.candidates| :: lane.candidates[i] == ViewOf(laneResult.candidates[i])
  }

  /** None of the lane's own evidence objects is among the dictionary's. */
  ghost predicate Apart(laneResult: LaneResult, owned: set<RetrievalEvidence>) {
    forall c | c in laneResult.candidates :: c.evidence !in owned
  }

  /** The inner loop: one lane's candidates, with its own set of seen ids and rank counter. */
  method AbsorbLaneResult(fusedById: Dict, order0: seq<string>, ghost owned0: set<RetrievalEvidence>,
                          ghost before: FuseState, laneResult: LaneResult, ghost lane: LaneView,
                          weight: real, config: FusionConfig)
    returns (ok: bool, fused: Dict, order: seq<string>, ghost owned: set<RetrievalEvidence>)
    requires Represents(fusedById, owned0, before) && order0 == before.order
    requires Apart(laneResult, owned0)
    requires LaneIs(laneResult, lane)
    requires weight == Weight(config.laneWeights, lane.name) && weight > 0.0
    modifies owned0
    ensures ok <==> !LaneHitsZero(lane, config)
    ensures ok ==>
              var st := AbsorbLane(before, lane, |lane.candidates|, config);
              Represents(fused, owned, st) && order == st.order
    ensures owned0 <= owned && fresh(owned - owned0)
  {
    ghost var st := before;
    fused, order, owned := fusedById, order0, owned0;
    var seenInLane: set<string>, uniqueRank: nat := {}, 0;
    LaneStarts(before, lane, config);
    for n := 0 to |laneResult.candidates|
      invariant owned0 <= owned && fresh(owned - owned0)
      invariant Apart(laneResult, owned) && LaneIs(laneResult, lane)
      invariant LaneAt(before, lane, n, config, st, seenInLane, uniqueRank)
      invariant Represents(fused, owned, st) && order == st.order
    {
      var candidate := laneResult.candidates[n];
      var itemId := candidate.candidate.itemId;
      if itemId in seenInLane {
        LaneSkips(before, lane, n, config, st, seenInLane, uniqueRank);
        continue;
      }
      if config.rrfK + uniqueRank + 1 == 0 {
        LaneFails(before, lane, n, config, st, seenInLane, uniqueRank);
        return false, fused, order, owned;
      }
      LaneTakes(before, lane, n, config, st, seenInLane, uniqueRank);
      seenInLane := seenInLane + {itemId};
      uniqueRank := uniqueRank + 1;
      fused, order, owned := AbsorbHit(fused, order, owned, st, candidate, lane.candidates[n],
                                       laneResult.laneName, uniqueRank, weight, config.rrfK);
      st := Absorb(st, lane.name, weight, config.rrfK, uniqueRank, lane.candidates[n]);
    }
    LaneEnds(before, lane, config, st, seenInLane, uniqueRank);
    ok := true;
  }

  /** Sorting and capping the finished dictionary. */
  method RankAndCap(fused: Dict, order: seq<string>, ghost owned: set<RetrievalEvidence>, ghost st: FuseState,
                    config: CapConfig)
    returns (capped: seq<Stage3Candidate>)
    requires Represents(fused, owned, st) && order == st.order && Keyed(st)
    ensures var keys := CappedKeys(Keys(st), config);
            && |capped| == |keys|
            && forall i | 0 <= i < |keys| :: keys[i].itemId in fused && capped[i] == fused[keys[i].itemId]
  {
    var ranked := RankValues(fused, order, owned, st);
    assert CandidateSources(ranked) == Sources(SortBy(Keys(st), KeyLe));
    capped := ApplyCaps(ranked, config);
  }

  /** The outer loop: every lane of positive weight, in order. */
  method AbsorbLaneResults(laneResults: seq<LaneResult>, ghost lanes: seq<LaneView>, config: FusionConfig)
    returns (ok: bool, fused: Dict, order: seq<string>, ghost owned: set<RetrievalEvidence>)
    requires |lanes| == |laneResults| && forall j | 0 <= j < |lanes| :: LaneIs(laneResults[j], lanes[j])
    ensures ok <==> !HitsZero(lanes, config)
    ensures ok ==> Represents(fused, owned, AbsorbLanes(lanes, config)) && order == AbsorbLanes(lanes, config).order
    ensures fresh(owned)
  {
    fused, order, owned := map[], [], {};
    for i := 0 to |laneResults|
      invariant fresh(owned)
      invariant Represents(fused, owned, AbsorbLanes(lanes[..i], config))
      invariant order == AbsorbLanes(lanes[..i], config).order
      invariant !HitsZero(lanes[..i], config)
    {
      ghost var st := AbsorbLanes(lanes[..i], config);
      assert lanes[..i + 1][..i] == lanes[..i];
      HitsZeroStep(lanes, i, config);
      var laneResult := laneResults[i];
      assert LaneIs(laneResult, lanes[i]);
      var weight := Weight(config.laneWeights, laneResult.laneName);
      if weight <= 0.0 {
        continue;
      }
      ok, fused, order, owned := AbsorbLaneResult(fused, order, owned, st, laneResult, lanes[i], weight, config);
      if !ok {
        return;
      }
    }
    assert lanes[..|lanes|] == lanes;
    ok := true;
  }

  method FuseLaneResults(laneResults: seq<LaneResult>, config: FusionConfig) returns (r: FuseResult)
    ensures r.ZeroDivision? <==> HitsZero(old(LaneViewsOf(laneResults)), config)
    ensures r.Ranking? ==>
              var lanes := old(LaneViewsOf(laneResults));
              var st, keys := AbsorbLanes(lanes, config), FusedKeys(lanes, config);
              && |r.candidates| == |keys|
              && (forall i | 0 <= i < |keys| ::
                    keys[i].itemId in st.byId && ViewOf(r.candidates[i]) == st.byId[keys[i].itemId])
              && (forall c | c in r.candidates :: fresh(c.evidence))
  {
    ghost var lanes := LaneViewsOf(laneResults);
    ghost var st := AbsorbLanes(lanes, config);
    var ok, fused, order, owned := AbsorbLaneResults(laneResults, lanes, config);
    if !ok {
      return ZeroDivision;
    }
    StateIsKeyed(lanes, config);
    var capped := RankAndCap(fused, order, owned, st, config.caps);
    r := Ranking(capped);
    forall c | c in capped ensures c.evidence in owned {
      var i :| 0 <= i < |capped| && capped[i] == c;
      assert fused[CappedKeys(Keys(st), config.caps)[i].itemId] == c;
    }
  }
}
