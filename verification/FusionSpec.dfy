/** Weighted reciprocal-rank fusion on values: what the scan over the lanes accumulates, the
    closed form of the score it accumulates, and what the order of the lanes can change. */
module FusionSpec {
  import opened Basics
  import opened Caps
  import opened Evidence
  import opened Ordering
  import opened RecallModels
  import opened Sequences

  datatype FusionConfig = FusionConfig(rrfK: int, laneWeights: seq<(string, real)>, caps: CapConfig)

  /** A candidate with the values of its evidence. */
  datatype Fused = Fused(candidate: RecallCandidate, evidence: EvidenceView)

  datatype LaneView = LaneView(name: string, candidates: seq<Fused>)

  /** `fused_by_id` with its insertion order. */
  datatype FuseState = FuseState(order: seq<string>, byId: map<string, Fused>)

  const EMPTY := FuseState([], map[])

  /** `dict(lane_weights).get(name, 0.0)`: the last entry of a name counts. */
  function Weight(weights: seq<(string, real)>, name: string): real {
    if weights == [] then 0.0
    else if weights[|weights| - 1].0 == name then weights[|weights| - 1].1
    else Weight(weights[..|weights| - 1], name)
  }

  /** A name without an entry weighs nothing. */
  lemma {:induction false} NoWeight(weights: seq<(string, real)>, name: string)
    requires forall i | 0 <= i < |weights| :: weights[i].0 != name
    ensures Weight(weights, name) == 0.0
  {
    if weights == [] {
    } else {
      NoWeight(weights[..|weights| - 1], name);
    }
  }

  lemma {:induction false} LastWeightCounts(weights: seq<(string, real)>, name: string, i: nat)
    requires i < |weights| && weights[i].0 == name && forall j | i < j < |weights| :: weights[j].0 != name
    ensures Weight(weights, name) == weights[i].1
  {
    if i == |weights| - 1 {
    } else {
      LastWeightCounts(weights[..|weights| - 1], name, i);
    }
  }

  function Ids(candidates: seq<Fused>): (r: seq<string>)
    ensures |r| == |candidates|
    ensures forall i | 0 <= i < |r| :: r[i] == candidates[i].candidate.itemId
  {
    seq(|candidates|, i requires 0 <= i < |candidates| => candidates[i].candidate.itemId)
  }

  /** The ids in order of first occurrence. */
  function FirstSeen(ids: seq<string>): (r: seq<string>)
    ensures forall x :: x in r <==> x in ids
    ensures Distinct(r)
  {
    if ids == [] then []
    else
      var before := FirstSeen(ids[..|ids| - 1]);
      var last := ids[|ids| - 1];
      assert forall x :: x in ids <==> x in ids[..|ids| - 1] || x == last;
      if last in before then before else before + [last]
  }

  /** The rank of an id among its lane's distinct ids, from one. */
  function Rank(ids: seq<string>, id: string): (r: nat)
    requires id in ids
    ensures 1 <= r <= |FirstSeen(ids)|
  {
    IndexOf(FirstSeen(ids), id) + 1
  }

  function Share(weight: real, rrfK: int, rank: nat): real {
    if rrfK + rank == 0 then 0.0 else weight / (rrfK + rank) as real
  }

  /** A share times its denominator is the lane's weight. */
  lemma ShareTimes(weight: real, rrfK: int, rank: nat)
    requires rrfK + rank != 0
    ensures Share(weight, rrfK, rank) * (rrfK + rank) as real == weight
  {
    var denominator := (rrfK + rank) as real;
    assert weight / denominator * denominator == weight;
  }

  // ----- the closed form

  /** What one lane gives to an id. */
  function LaneShare(lane: LaneView, id: string, config: FusionConfig): real {
    var weight := Weight(config.laneWeights, lane.name);
    if weight <= 0.0 || id !in Ids(lane.candidates) then 0.0
    else Share(weight, config.rrfK, Rank(Ids(lane.candidates), id))
  }

  function Score(lanes: seq<LaneView>, id: string, config: FusionConfig): real {
    if lanes == [] then 0.0
    else Score(lanes[..|lanes| - 1], id, config) + LaneShare(lanes[|lanes| - 1], id, config)
  }

  predicate Contributes(lane: LaneView, id: string, config: FusionConfig) {
    Weight(config.laneWeights, lane.name) > 0.0 && id in Ids(lane.candidates)
  }

  /** One of the ranks the lane gives out makes its denominator zero: the division raises. */
  predicate LaneHitsZero(lane: LaneView, config: FusionConfig) {
    && Weight(config.laneWeights, lane.name) > 0.0
    && config.rrfK < 0
    && |FirstSeen(Ids(lane.candidates))| >= -config.rrfK
  }

  predicate HitsZero(lanes: seq<LaneView>, config: FusionConfig) {
    exists i | 0 <= i < |lanes| :: LaneHitsZero(lanes[i], config)
  }

  lemma HitsZeroStep(lanes: seq<LaneView>, i: nat, config: FusionConfig)
    requires i < |lanes|
    ensures HitsZero(lanes[..i + 1], config) <==> HitsZero(lanes[..i], config) || LaneHitsZero(lanes[i], config)
    ensures LaneHitsZero(lanes[i], config) ==> HitsZero(lanes, config)
  {
    var shorter, longer := lanes[..i], lanes[..i + 1];
    assert longer[i] == lanes[i];
    assert forall j | 0 <= j < i :: shorter[j] == longer[j];
    if HitsZero(shorter, config) {
      var j :| 0 <= j < |shorter| && LaneHitsZero(shorter[j], config);
      assert LaneHitsZero(longer[j], config);
    }
  }

  // ----- the scan

  /** A first sighting copies the hit, a later one merges its evidence into the entry. */
  function Joined(entry: Option<Fused>, hit: Fused): Fused {
    match entry
    case None => hit.(evidence := hit.evidence.(fusedScore := 0.0))
    case Some(e) => e.(evidence := Merged(e.evidence, hit.evidence))
  }

  function Admitted(st: FuseState, hit: Fused): FuseState {
    var id := hit.candidate.itemId;
    if id in st.byId then FuseState(st.order, st.byId[id := Joined(Some(st.byId[id]), hit)])
    else FuseState(st.order + [id], st.byId[id := Joined(None, hit)])
  }

  function Marked(st: FuseState, id: string, lane: string, rank: nat, contribution: real): FuseState
    requires id in st.byId
  {
    var entry := st.byId[id];
    st.(byId := st.byId[id := entry.(evidence := Ranked(entry.evidence, lane, rank, contribution))])
  }

  function Absorb(st: FuseState, lane: string, weight: real, rrfK: int, rank: nat, hit: Fused): FuseState {
    Marked(Admitted(st, hit), hit.candidate.itemId, lane, rank, Share(weight, rrfK, rank))
  }

  function AbsorbLane(st: FuseState, lane: LaneView, n: nat, config: FusionConfig): FuseState
    requires n <= |lane.candidates|
  {
    if n == 0 then st
    else
      var before := AbsorbLane(st, lane, n - 1, config);
      var ids := Ids(lane.candidates);
      if ids[n - 1] in ids[..n - 1] then before
      else Absorb(before, lane.name, Weight(config.laneWeights, lane.name), config.rrfK,
                  |FirstSeen(ids[..n])|, lane.candidates[n - 1])
  }

  function AbsorbLanes(lanes: seq<LaneView>, config: FusionConfig): FuseState {
    if lanes == [] then EMPTY
    else
      var before := AbsorbLanes(lanes[..|lanes| - 1], config);
      var lane := lanes[|lanes| - 1];
      if Weight(config.laneWeights, lane.name) <= 0.0 then before
      else AbsorbLane(before, lane, |lane.candidates|, config)
  }

  // ----- the ranking

  datatype Key = Key(score: real, symbolic: bool, source: string, itemId: string)

  function KeyOf(f: Fused): Key {
    Key(f.evidence.fusedScore, SYMBOLIC in f.evidence.lanes, f.candidate.source, f.candidate.itemId)
  }

  /** Score descending, symbolic hits first, then source and id. */
  predicate KeyLe(a: Key, b: Key) {
    || a.score > b.score
    || (a.score == b.score
        && (|| (a.symbolic && !b.symbolic)
            || (a.symbolic == b.symbolic
                && (|| (a.source != b.source && StrLe(a.source, b.source))
                    || (a.source == b.source && StrLe(a.itemId, b.itemId))))))
  }

  function Keys(st: FuseState): (r: seq<Key>)
    requires forall x | x in st.order :: x in st.byId
    ensures |r| == |st.order|
    ensures forall i | 0 <= i < |r| :: r[i] == KeyOf(st.byId[st.order[i]])
  {
    seq(|st.order|, i requires 0 <= i < |st.order| => KeyOf(st.byId[st.order[i]]))
  }

  function Sources(keys: seq<Key>): (r: seq<string>)
    ensures |r| == |keys|
    ensures forall i | 0 <= i < |r| :: r[i] == keys[i].source
  {
    seq(|keys|, i requires 0 <= i < |keys| => keys[i].source)
  }

  /** The keys of the output, best first. */
  function CappedKeys(keys: seq<Key>, config: CapConfig): seq<Key> {
    var ranked := SortBy(keys, KeyLe);
    var picks := GreedyPicks(Sources(ranked), |ranked|, config);
    GreedyIsSelection(Sources(ranked), |ranked|, config);
    Pick(ranked, picks)
  }

  function FusedKeys(lanes: seq<LaneView>, config: FusionConfig): seq<Key> {
    StateIsKeyed(lanes, config);
    CappedKeys(Keys(AbsorbLanes(lanes, config)), config.caps)
  }

  lemma KeyLeIsTotalOrder()
    ensures TotalPreorder(KeyLe)
    ensures forall a, b :: KeyLe(a, b) && KeyLe(b, a) ==> a == b
  {
    StrLeIsTotalOrder();
    assert forall a, b :: StrLe(a, b) || StrLe(b, a);
    assert forall a, b, c :: StrLe(a, b) && StrLe(b, c) ==> StrLe(a, c);
    forall a, b, c | KeyLe(a, b) && KeyLe(b, c) ensures KeyLe(a, c) {
    }
  }

  // ----- what the scan keeps

  /** `order` lists the keys of `byId` once each, and every entry sits under its own id. */
  ghost predicate Keyed(st: FuseState) {
    && Distinct(st.order)
    && (forall x :: x in st.order <==> x in st.byId)
    && (forall x | x in st.byId :: st.byId[x].candidate.itemId == x)
  }

  lemma {:induction false} AbsorbLaneKeyed(st: FuseState, lane: LaneView, n: nat, config: FusionConfig)
    requires n <= |lane.candidates|
    requires Keyed(st)
    ensures Keyed(AbsorbLane(st, lane, n, config))
  {
    if n == 0 {
    } else {
      AbsorbLaneKeyed(st, lane, n - 1, config);
    }
  }

  lemma {:induction false} StateIsKeyed(lanes: seq<LaneView>, config: FusionConfig)
    ensures Keyed(AbsorbLanes(lanes, config))
  {
    if lanes == [] {
    } else {
      var before := lanes[..|lanes| - 1];
      StateIsKeyed(before, config);
      AbsorbLaneKeyed(AbsorbLanes(before, config), lanes[|lanes| - 1], |lanes[|lanes| - 1].candidates|, config);
    }
  }

  lemma {:induction false} FirstSeenGrows(ids: seq<string>, n: nat)
    requires n <= |ids|
    ensures FirstSeen(ids[..n]) <= FirstSeen(ids)
  {
    if n < |ids| {
      FirstSeenGrows(ids[..|ids| - 1], n);
      assert ids[..|ids| - 1][..n] == ids[..n];
    } else {
      assert ids[..n] == ids;
    }
  }

  /** The counter's value when an id is first met is its rank in the whole lane. */
  lemma RankAtFirstSight(ids: seq<string>, n: nat)
    requires 0 < n <= |ids| && ids[n - 1] !in ids[..n - 1]
    ensures Rank(ids, ids[n - 1]) == |FirstSeen(ids[..n])|
  {
    assert ids[..n][..n - 1] == ids[..n - 1];
    var seen := FirstSeen(ids[..n]);
    var i := |seen| - 1;
    assert seen[i] == ids[n - 1];
    FirstSeenGrows(ids, n);
    var j := IndexOf(FirstSeen(ids), ids[n - 1]);
    assert FirstSeen(ids)[i] == FirstSeen(ids)[j];
  }

  function SeenBefore(ids: seq<string>, n: nat): set<string>
    requires n <= |ids|
  {
    set x | x in ids[..n]
  }

  /** One turn of the inner loop: a repeated id is skipped, a new one takes the next rank. */
  lemma LaneStep(st: FuseState, lane: LaneView, n: nat, config: FusionConfig)
    requires n < |lane.candidates|
    ensures var ids := Ids(lane.candidates);
            var rank := |FirstSeen(ids[..n])|;
            var hit := lane.candidates[n];
            && SeenBefore(ids, n + 1) == SeenBefore(ids, n) + {ids[n]}
            && |FirstSeen(ids[..n + 1])| == (if ids[n] in SeenBefore(ids, n) then rank else rank + 1)
            && |FirstSeen(ids[..n + 1])| <= |FirstSeen(ids)|
            && AbsorbLane(st, lane, n + 1, config) ==
                 (if ids[n] in SeenBefore(ids, n) then AbsorbLane(st, lane, n, config)
                  else Absorb(AbsorbLane(st, lane, n, config), lane.name, Weight(config.laneWeights, lane.name),
                              config.rrfK, rank + 1, hit))
  {
    var ids := Ids(lane.candidates);
    assert ids[..n + 1] == ids[..n] + [ids[n]] && ids[..n + 1][..n] == ids[..n];
    FirstSeenGrows(ids, n + 1);
  }

  /** Where the inner loop stands after n candidates. */
  ghost predicate LaneAt(before: FuseState, lane: LaneView, n: nat, config: FusionConfig, st: FuseState,
                         seen: set<string>, rank: nat)
    requires n <= |lane.candidates|
  {
    var ids := Ids(lane.candidates);
    && st == AbsorbLane(before, lane, n, config)
    && seen == SeenBefore(ids, n) && rank == |FirstSeen(ids[..n])|
    && (config.rrfK < 0 ==> rank < -config.rrfK)
  }

  lemma LaneStarts(before: FuseState, lane: LaneView, config: FusionConfig)
    ensures LaneAt(before, lane, 0, config, before, {}, 0)
  {
  }

  lemma LaneSkips(before: FuseState, lane: LaneView, n: nat, config: FusionConfig, st: FuseState, seen: set<string>,
                  rank: nat)
    requires n < |lane.candidates| && LaneAt(before, lane, n, config, st, seen, rank)
    requires lane.candidates[n].candidate.itemId in seen
    ensures LaneAt(before, lane, n + 1, config, st, seen, rank)
  {
    LaneStep(before, lane, n, config);
  }

  lemma LaneTakes(before: FuseState, lane: LaneView, n: nat, config: FusionConfig, st: FuseState, seen: set<string>,
                  rank: nat)
    requires n < |lane.candidates| && LaneAt(before, lane, n, config, st, seen, rank)
    requires lane.candidates[n].candidate.itemId !in seen && config.rrfK + rank + 1 != 0
    ensures var hit := lane.candidates[n];
      LaneAt(before, lane, n + 1, config,
             Absorb(st, lane.name, Weight(config.laneWeights, lane.name), config.rrfK, rank + 1, hit),
             seen + {hit.candidate.itemId}, rank + 1)
  {
    LaneStep(before, lane, n, config);
  }

  lemma LaneFails(before: FuseState, lane: LaneView, n: nat, config: FusionConfig, st: FuseState, seen: set<string>,
                  rank: nat)
    requires n < |lane.candidates| && LaneAt(before, lane, n, config, st, seen, rank)
    requires lane.candidates[n].candidate.itemId !in seen && config.rrfK + rank + 1 == 0
    requires Weight(config.laneWeights, lane.name) > 0.0
    ensures LaneHitsZero(lane, config)
  {
    LaneStep(before, lane, n, config);
  }

  lemma LaneEnds(before: FuseState, lane: LaneView, config: FusionConfig, st: FuseState, seen: set<string>, rank: nat)
    requires LaneAt(before, lane, |lane.candidates|, config, st, seen, rank)
    ensures st == AbsorbLane(before, lane, |lane.candidates|, config) && !LaneHitsZero(lane, config)
  {
    var ids := Ids(lane.candidates);
    assert ids[..|ids|] == ids;
  }

  // ----- the entry of one id

  /** The lane's first candidate with the id. */
  function Hit(lane: LaneView, id: string): (r: Fused)
    requires id in Ids(lane.candidates)
    ensures r in lane.candidates && r.candidate.itemId == id
  {
    lane.candidates[IndexOf(Ids(lane.candidates), id)]
  }

  /** What a whole lane makes of an id's entry. */
  function Met(entry: Option<Fused>, lane: LaneView, id: string, config: FusionConfig): Option<Fused> {
    if !Contributes(lane, id, config) then entry
    else
      var joined := Joined(entry, Hit(lane, id));
      var rank := Rank(Ids(lane.candidates), id);
      Some(joined.(evidence := Ranked(joined.evidence, lane.name, rank, LaneShare(lane, id, config))))
  }

  function Entry(lanes: seq<LaneView>, id: string, config: FusionConfig): Option<Fused> {
    if lanes == [] then None
    else Met(Entry(lanes[..|lanes| - 1], id, config), lanes[|lanes| - 1], id, config)
  }

  function EntryIn(st: FuseState, id: string): Option<Fused> {
    if id in st.byId then Some(st.byId[id]) else None
  }

  /** A hit changes the entry of its own id and no other. */
  lemma AbsorbEntry(st: FuseState, lane: string, weight: real, rrfK: int, rank: nat, hit: Fused, id: string)
    ensures var entry, joined := EntryIn(st, id), Joined(EntryIn(st, id), hit);
            EntryIn(Absorb(st, lane, weight, rrfK, rank, hit), id) ==
              if id != hit.candidate.itemId then entry
              else Some(joined.(evidence := Ranked(joined.evidence, lane, rank, Share(weight, rrfK, rank))))
  {
  }

  lemma FirstIndex(ids: seq<string>, n: nat)
    requires n < |ids| && ids[n] !in ids[..n]
    ensures IndexOf(ids, ids[n]) == n
  {
    assert forall i | 0 <= i < n :: ids[..n][i] == ids[i];
  }

  /** Scanning a lane makes of an id's entry what its first hit does. */
  lemma {:induction false} AbsorbLaneEntry(st: FuseState, lane: LaneView, n: nat, config: FusionConfig, id: string)
    requires n <= |lane.candidates| && Weight(config.laneWeights, lane.name) > 0.0
    ensures EntryIn(AbsorbLane(st, lane, n, config), id) ==
            if id in Ids(lane.candidates)[..n] then Met(EntryIn(st, id), lane, id, config) else EntryIn(st, id)
  {
    if n == 0 {
    } else {
      var ids, before := Ids(lane.candidates), AbsorbLane(st, lane, n - 1, config);
      AbsorbLaneEntry(st, lane, n - 1, config, id);
      assert ids[..n] == ids[..n - 1] + [ids[n - 1]];
      if ids[n - 1] !in ids[..n - 1] {
        RankAtFirstSight(ids, n);
        FirstIndex(ids, n - 1);
        AbsorbEntry(before, lane.name, Weight(config.laneWeights, lane.name), config.rrfK, Rank(ids, ids[n - 1]),
                    lane.candidates[n - 1], id);
      }
    }
  }

  /** The dictionary's entry for an id comes from the lanes' first hits alone. */
  lemma {:induction false} EntriesAreFolds(lanes: seq<LaneView>, config: FusionConfig, id: string)
    ensures EntryIn(AbsorbLanes(lanes, config), id) == Entry(lanes, id, config)
  {
    if lanes == [] {
    } else {
      var before, lane := lanes[..|lanes| - 1], lanes[|lanes| - 1];
      EntriesAreFolds(before, config, id);
      if Weight(config.laneWeights, lane.name) > 0.0 {
        AbsorbLaneEntry(AbsorbLanes(before, config), lane, |lane.candidates|, config, id);
        assert Ids(lane.candidates)[..|lane.candidates|] == Ids(lane.candidates);
      }
    }
  }

  ghost predicate SomeLane(lanes: seq<LaneView>, p: LaneView -> bool) {
    exists i | 0 <= i < |lanes| :: p(lanes[i])
  }

  lemma SomeSplits(lanes: seq<LaneView>, p: LaneView -> bool)
    requires lanes != []
    ensures SomeLane(lanes, p) <==> SomeLane(lanes[..|lanes| - 1], p) || p(lanes[|lanes| - 1])
  {
    var before := lanes[..|lanes| - 1];
    assert forall i | 0 <= i < |before| :: before[i] == lanes[i];
    if SomeLane(before, p) {
      var i :| 0 <= i < |before| && p(before[i]);
      assert p(lanes[i]);
    }
  }

  lemma {:induction false} EntryScore(lanes: seq<LaneView>, config: FusionConfig, id: string)
    ensures var entry := Entry(lanes, id, config);
            && (entry.Some? <==> SomeLane(lanes, x => Contributes(x, id, config)))
            && Score(lanes, id, config) == if entry.Some? then entry.value.evidence.fusedScore else 0.0
  {
    if lanes == [] {
    } else {
      EntryScore(lanes[..|lanes| - 1], config, id);
      SomeSplits(lanes, x => Contributes(x, id, config));
    }
  }

  /** No lane of positive weight gives the id a rank that makes its denominator zero. */
  ghost predicate Divides(lanes: seq<LaneView>, config: FusionConfig, id: string) {
    forall lane | lane in lanes && Weight(config.laneWeights, lane.name) > 0.0 && id in Ids(lane.candidates) ::
      config.rrfK + Rank(Ids(lane.candidates), id) != 0
  }

  lemma NoZeroDivides(lanes: seq<LaneView>, config: FusionConfig, id: string)
    requires !HitsZero(lanes, config)
    ensures Divides(lanes, config, id)
  {
    forall lane | lane in lanes && Weight(config.laneWeights, lane.name) > 0.0 && id in Ids(lane.candidates)
      ensures config.rrfK + Rank(Ids(lane.candidates), id) != 0
    {
      var i :| 0 <= i < |lanes| && lanes[i] == lane;
      assert !LaneHitsZero(lanes[i], config);
    }
  }

  /** The sum of weight / (k + rank) over the lanes of positive weight that hold the id. */
  ghost function RrfSum(lanes: seq<LaneView>, config: FusionConfig, id: string): real
    requires Divides(lanes, config, id)
  {
    if lanes == [] then 0.0
    else
      var lane, before := lanes[|lanes| - 1], lanes[..|lanes| - 1];
      var weight := Weight(config.laneWeights, lane.name);
      RrfSum(before, config, id)
      + if weight > 0.0 && id in Ids(lane.candidates)
        then weight / (config.rrfK + Rank(Ids(lane.candidates), id)) as real else 0.0
  }

  lemma {:induction false} ScoreIsRrfSum(lanes: seq<LaneView>, config: FusionConfig, id: string)
    requires Divides(lanes, config, id)
    ensures Score(lanes, id, config) == RrfSum(lanes, config, id)
  {
    if lanes == [] {
    } else {
      ScoreIsRrfSum(lanes[..|lanes| - 1], config, id);
      assert lanes[|lanes| - 1] in lanes;
    }
  }

  /** The fused score is the sum of weight / (k + rank) over the positive lanes that hold the id,
      and the ids with an entry are the ids such lanes hold. */
  lemma FusedScoreIsRrfSum(lanes: seq<LaneView>, config: FusionConfig, id: string)
    ensures var st := AbsorbLanes(lanes, config);
            && (id in st.byId <==> exists lane | lane in lanes ::
                  Weight(config.laneWeights, lane.name) > 0.0 && id in Ids(lane.candidates))
            && (id in st.byId && Divides(lanes, config, id) ==>
                  st.byId[id].evidence.fusedScore == RrfSum(lanes, config, id))
            && (id in st.byId <==> SomeLane(lanes, x => Contributes(x, id, config)))
            && (id in st.byId ==> st.byId[id].evidence.fusedScore == Score(lanes, id, config))
            && (id !in st.byId ==> Score(lanes, id, config) == 0.0)
  {
    EntriesAreFolds(lanes, config, id);
    EntryScore(lanes, config, id);
    if Divides(lanes, config, id) { ScoreIsRrfSum(lanes, config, id); }
    if i :| 0 <= i < |lanes| && Contributes(lanes[i], id, config) { assert lanes[i] in lanes; }
    if lane :| lane in lanes && Weight(config.laneWeights, lane.name) > 0.0 && id in Ids(lane.candidates) {
      assert Contributes(lane, id, config);
    }
  }

  // ----- the order of the lanes

  /** An id determines its source, and only the symbolic lane's evidence says "symbolic". */
  ghost predicate Consistent(lane: LaneView, sourceOf: string -> string) {
    forall k | 0 <= k < |lane.candidates| ::
      var c := lane.candidates[k];
      && c.candidate.source == sourceOf(c.candidate.itemId)
      && (SYMBOLIC in c.evidence.lanes ==> lane.name == SYMBOLIC)
  }

  predicate SymbolicContributes(lane: LaneView, id: string, config: FusionConfig) {
    lane.name == SYMBOLIC && Contributes(lane, id, config)
  }

  /** An entry has its id's source, and is marked symbolic iff the symbolic lane holds it. */
  lemma {:induction false} MarksAreLanes(lanes: seq<LaneView>, config: FusionConfig, sourceOf: string -> string,
                                         id: string)
    requires forall i | 0 <= i < |lanes| :: Consistent(lanes[i], sourceOf)
    ensures var entry := Entry(lanes, id, config);
            && (entry.Some? ==> entry.value.candidate.source == sourceOf(id))
            && (entry.Some? && SYMBOLIC in entry.value.evidence.lanes
                <==> SomeLane(lanes, x => SymbolicContributes(x, id, config)))
  {
    if lanes == [] {
    } else {
      MarksAreLanes(lanes[..|lanes| - 1], config, sourceOf, id);
      SomeSplits(lanes, x => SymbolicContributes(x, id, config));
    }
  }

  lemma {:induction false} ScoreWithout(lanes: seq<LaneView>, k: nat, id: string, config: FusionConfig)
    requires k < |lanes|
    ensures Score(lanes, id, config)
            == Score(lanes[..k] + lanes[k + 1..], id, config) + LaneShare(lanes[k], id, config)
  {
    var n := |lanes| - 1;
    if k == n {
      assert lanes[..k] + lanes[k + 1..] == lanes[..n];
    } else {
      var init := lanes[..n];
      ScoreWithout(init, k, id, config);
      var rest := lanes[..k] + lanes[k + 1..];
      assert rest[..|rest| - 1] == init[..k] + init[k + 1..];
    }
  }

  lemma MultisetWithout<T>(s: seq<T>, k: nat)
    requires k < |s|
    ensures multiset(s[..k] + s[k + 1..]) == multiset(s) - multiset{s[k]}
  {
    assert s == s[..k] + [s[k]] + s[k + 1..];
  }

  lemma {:induction false} ScoreIgnoresOrder(a: seq<LaneView>, b: seq<LaneView>, id: string, config: FusionConfig)
    requires multiset(a) == multiset(b)
    ensures Score(a, id, config) == Score(b, id, config)
  {
    assert |a| == |multiset(a)| == |multiset(b)| == |b|;
    if a == [] {
    } else {
      var n := |a| - 1;
      assert a == a[..n] + [a[n]];
      assert a[n] in multiset(b);
      var k :| 0 <= k < |b| && b[k] == a[n];
      MultisetWithout(b, k);
      assert multiset(a[..n]) == multiset(a) - multiset{a[n]};
      ScoreIgnoresOrder(a[..n], b[..k] + b[k + 1..], id, config);
      ScoreWithout(b, k, id, config);
    }
  }

  /** Distinct sequences over the same elements are permutations of each other. */
  lemma {:induction false} DistinctSameElements<T>(a: seq<T>, b: seq<T>)
    requires Distinct(a) && Distinct(b)
    requires forall x :: x in a <==> x in b
    ensures multiset(a) == multiset(b)
  {
    forall x ensures multiset(a)[x] == multiset(b)[x] {
      DistinctCount(a, x);
      DistinctCount(b, x);
    }
  }

  lemma {:induction false} DistinctCount<T>(a: seq<T>, x: T)
    requires Distinct(a)
    ensures multiset(a)[x] == if x in a then 1 else 0
  {
    if a == [] {
    } else {
      var n := |a| - 1;
      assert a == a[..n] + [a[n]];
      DistinctCount(a[..n], x);
    }
  }

  lemma SameEntries(a: seq<LaneView>, b: seq<LaneView>, config: FusionConfig, sourceOf: string -> string, id: string)
    requires multiset(a) == multiset(b)
    requires forall i | 0 <= i < |a| :: Consistent(a[i], sourceOf)
    requires forall i | 0 <= i < |b| :: Consistent(b[i], sourceOf)
    ensures var ea, eb := AbsorbLanes(a, config).byId, AbsorbLanes(b, config).byId;
            && (id in ea <==> id in eb)
            && (id in ea ==> KeyOf(ea[id]) == KeyOf(eb[id]))
  {
    StateIsKeyed(a, config);
    StateIsKeyed(b, config);
    FusedScoreIsRrfSum(a, config, id);
    FusedScoreIsRrfSum(b, config, id);
    EntriesAreFolds(a, config, id);
    EntriesAreFolds(b, config, id);
    MarksAreLanes(a, config, sourceOf, id);
    MarksAreLanes(b, config, sourceOf, id);
    ScoreIgnoresOrder(a, b, id, config);
    SomeLaneMoves(a, b, x => Contributes(x, id, config));
    SomeLaneMoves(a, b, x => SymbolicContributes(x, id, config));
  }

  lemma SomeLaneMoves(a: seq<LaneView>, b: seq<LaneView>, p: LaneView -> bool)
    requires multiset(a) == multiset(b)
    ensures SomeLane(a, p) <==> SomeLane(b, p)
  {
    forall x ensures x in a <==> x in b { SameElements(a, b, x); }
    if i :| 0 <= i < |a| && p(a[i]) {
      assert a[i] in b;
    }
    if i :| 0 <= i < |b| && p(b[i]) {
      assert b[i] in a;
    }
  }

  lemma KeysNoTies(lanes: seq<LaneView>, config: FusionConfig)
    ensures Keyed(AbsorbLanes(lanes, config))
    ensures Distinct(Keys(AbsorbLanes(lanes, config)))
    ensures NoTies(Keys(AbsorbLanes(lanes, config)), KeyLe)
  {
    StateIsKeyed(lanes, config);
    KeyLeIsTotalOrder();
    var st := AbsorbLanes(lanes, config);
    var keys := Keys(st);
    forall i, j | 0 <= i < j < |keys| ensures keys[i] != keys[j] {
      assert keys[i].itemId == st.order[i] && keys[j].itemId == st.order[j];
    }
  }

  /** Permuting the lanes changes nothing about what comes out: same ids, same scores, same order. */
  lemma FusionIgnoresLaneOrder(a: seq<LaneView>, b: seq<LaneView>, config: FusionConfig, sourceOf: string -> string)
    requires multiset(a) == multiset(b)
    requires forall i | 0 <= i < |a| :: Consistent(a[i], sourceOf)
    ensures FusedKeys(a, config) == FusedKeys(b, config)
  {
    forall i | 0 <= i < |b| ensures Consistent(b[i], sourceOf) { SameElements(a, b, b[i]); }
    KeysNoTies(a, config);
    KeysNoTies(b, config);
    var sa, sb := AbsorbLanes(a, config), AbsorbLanes(b, config);
    forall k ensures k in Keys(sa) <==> k in Keys(sb) {
      SameEntries(a, b, config, sourceOf, k.itemId);
      KeyIsOwn(sa, k);
      KeyIsOwn(sb, k);
    }
    DistinctSameElements(Keys(sa), Keys(sb));
    KeyLeIsTotalOrder();
    SortIgnoresOrder(Keys(sa), Keys(sb), KeyLe);
  }

  lemma KeyIsOwn(st: FuseState, k: Key)
    requires Keyed(st)
    ensures k in Keys(st) <==> k.itemId in st.byId && k == KeyOf(st.byId[k.itemId])
  {
    if k.itemId in st.byId && k == KeyOf(st.byId[k.itemId]) {
      var i :| 0 <= i < |st.order| && st.order[i] == k.itemId;
      assert Keys(st)[i] == k;
    }
  }

  // ----- the caps, on what fusion ranks

  function RankedKeys(lanes: seq<LaneView>, config: FusionConfig): seq<Key> {
    StateIsKeyed(lanes, config);
    SortBy(Keys(AbsorbLanes(lanes, config)), KeyLe)
  }

  lemma {:induction false} ScoreNotNegative(lanes: seq<LaneView>, id: string, config: FusionConfig)
    requires config.rrfK >= 0
    ensures Score(lanes, id, config) >= 0.0
  {
    if lanes == [] {
    } else {
      ScoreNotNegative(lanes[..|lanes| - 1], id, config);
    }
  }

  lemma RankedIsDescending(lanes: seq<LaneView>, config: FusionConfig)
    ensures var ranked := RankedKeys(lanes, config);
            && (forall i, j | 0 <= i < j < |ranked| :: ranked[i].score >= ranked[j].score)
            && (config.rrfK >= 0 ==> forall k | 0 <= k < |ranked| :: ranked[k].score >= 0.0)
  {
    var st := AbsorbLanes(lanes, config);
    var ranked := RankedKeys(lanes, config);
    StateIsKeyed(lanes, config);
    KeyLeIsTotalOrder();
    SortBySorted(Keys(st), KeyLe);
    assert forall i, j | 0 <= i < j < |ranked| :: KeyLe(ranked[i], ranked[j]);
    if config.rrfK >= 0 {
      forall k | 0 <= k < |ranked| ensures ranked[k].score >= 0.0 {
        SameElements(ranked, Keys(st), ranked[k]);
        KeyIsOwn(st, ranked[k]);
        FusedScoreIsRrfSum(lanes, config, ranked[k].itemId);
        ScoreNotNegative(lanes, ranked[k].itemId, config);
      }
    }
  }

  /** Among all selections from the fused ranking within the caps, the output is at least as long
      and has the best k-th score for every k; with a non-negative k constant it also has the
      largest total. */
  lemma FusionOutputIsOptimal(lanes: seq<LaneView>, config: FusionConfig, picks: seq<nat>)
    requires Feasible(Sources(RankedKeys(lanes, config)), picks, config.caps)
    ensures var ranked, out := RankedKeys(lanes, config), FusedKeys(lanes, config);
            && |picks| <= |out|
            && (forall k | 0 <= k < |picks| :: out[k].score >= ranked[picks[k]].score)
            && (config.rrfK >= 0 ==> TotalScore(Pick(ranked, picks)) <= TotalScore(out))
  {
    var ranked, out := RankedKeys(lanes, config), FusedKeys(lanes, config);
    RankedIsDescending(lanes, config);
    GreedyDominates(Sources(ranked), picks, config.caps);
    GreedyIsSelection(Sources(ranked), |ranked|, config.caps);
    if config.rrfK >= 0 {
      TotalScoreDominates(Pick(ranked, picks), out);
    }
  }

  /** Descending scores; at equal scores what the symbolic lane found first, then sources and ids, alphabetically. */
  ghost predicate InOrder(a: Key, b: Key) {
    && a.score >= b.score
    && (a.score == b.score ==> (b.symbolic ==> a.symbolic))
    && (a.score == b.score && a.symbolic == b.symbolic ==>
          StrLe(a.source, b.source) && (a.source == b.source ==> StrLe(a.itemId, b.itemId)))
  }

  lemma OutputIsInOrder(lanes: seq<LaneView>, config: FusionConfig)
    ensures var out := FusedKeys(lanes, config); forall i, j | 0 <= i < j < |out| :: InOrder(out[i], out[j])
  {
    var out, ranked := FusedKeys(lanes, config), RankedKeys(lanes, config);
    StateIsKeyed(lanes, config);
    KeyLeIsTotalOrder();
    StrLeIsTotalOrder();
    SortBySorted(Keys(AbsorbLanes(lanes, config)), KeyLe);
    GreedyIsSelection(Sources(ranked), |ranked|, config.caps);
    forall i, j | 0 <= i < j < |out| ensures InOrder(out[i], out[j]) {
      assert KeyLe(out[i], out[j]);
    }
  }

  /** A key in the output says what its id's entry says, and its score is the sum of the quotients. */
  lemma OutputKeysAre(lanes: seq<LaneView>, config: FusionConfig, key: Key)
    requires key in FusedKeys(lanes, config)
    ensures var st := AbsorbLanes(lanes, config);
      && key.itemId in st.byId && key.source == st.byId[key.itemId].candidate.source
      && key.score == st.byId[key.itemId].evidence.fusedScore
      && (key.symbolic <==> "symbolic" in st.byId[key.itemId].evidence.lanes)
      && (!HitsZero(lanes, config) ==>
            Divides(lanes, config, key.itemId) && key.score == RrfSum(lanes, config, key.itemId))
  {
    var st, ranked := AbsorbLanes(lanes, config), RankedKeys(lanes, config);
    StateIsKeyed(lanes, config);
    GreedyIsSelection(Sources(ranked), |ranked|, config.caps);
    assert key in ranked;
    SameElements(ranked, Keys(st), key);
    KeyIsOwn(st, key);
    FusedScoreIsRrfSum(lanes, config, key.itemId);
    if !HitsZero(lanes, config) { NoZeroDivides(lanes, config, key.itemId); }
  }

  /** The output has at most so many candidates in all, and of each of the two sources. */
  lemma OutputFitsCaps(lanes: seq<LaneView>, config: FusionConfig)
    ensures var out := FusedKeys(lanes, config);
      && |out| <= Max(0, config.caps.maxCandidates)
      && multiset(Sources(out))["profile"] <= Max(0, config.caps.maxProfile)
      && multiset(Sources(out))["episode_slice"] <= Max(0, config.caps.maxSlice)
  {
    var ranked := RankedKeys(lanes, config);
    var sources := Sources(ranked);
    var picks := GreedyPicks(sources, |ranked|, config.caps);
    GreedyFeasible(sources, config.caps);
    FeasibleMeans(sources, picks, config.caps);
    assert Sources(FusedKeys(lanes, config)) == Pick(sources, picks);
  }

  function TotalScore(keys: seq<Key>): real {
    if keys == [] then 0.0 else TotalScore(keys[..|keys| - 1]) + keys[|keys| - 1].score
  }

  lemma {:induction false} TotalScoreDominates(low: seq<Key>, high: seq<Key>)
    requires |low| <= |high|
    requires forall k | 0 <= k < |low| :: low[k].score <= high[k].score
    requires forall k | 0 <= k < |high| :: high[k].score >= 0.0
    ensures TotalScore(low) <= TotalScore(high)
  {
    if |low| < |high| {
      TotalScoreDominates(low, high[..|high| - 1]);
    } else if low != [] {
      TotalScoreDominates(low[..|low| - 1], high[..|high| - 1]);
    }
  }
}
