/** The rule-based reranker: drop conflicting candidates, keep the best of each duplicate group,
    take the first n. Scoring, grouping and the conflict test are functions of the candidate. */
module Reranker {
  import opened Ordering
  import opened RecallModels
  import opened Sequences

  datatype Scored = Scored(score: real, group: string, candidate: RecallCandidate)

  /** What the two reranker entry points differ in. */
  datatype Policy = Policy(
    source: string,
    intentLabel: string,
    detail: RecallCandidate -> ScoreDetail,
    group: RecallCandidate -> string,
    conflicts: RecallCandidate -> bool,
    topN: int
  ) {
    function Score(candidate: RecallCandidate): real { detail(candidate).finalScore }
  }

  /** The score detail of a candidate; the reason text is a rendering of it. */
  datatype ScoreDetail = ScoreDetail(finalScore: real, parts: string)

  datatype Reason = FilteredConflict | ScoredAt(detail: ScoreDetail)

  /** The final reason only says how many were selected. */
  datatype RerankResult = RerankResult(selectedItemIds: seq<string>, selectedCount: nat,
                                       perItemReason: map<string, Reason>,
                                       perItemScores: map<string, ScoreDetail>, intentLabel: string)

  /** Score descending, then item id. */
  predicate Better(a: Scored, b: Scored) {
    a.score > b.score || (a.score == b.score && StrLe(a.candidate.itemId, b.candidate.itemId))
  }

  ghost predicate DistinctIds(scored: seq<Scored>) {
    forall i, j | 0 <= i < j < |scored| :: scored[i].candidate.itemId != scored[j].candidate.itemId
  }

  lemma BetterIsTotalPreorder()
    ensures TotalPreorder(Better)
    ensures forall a, b ::
              Better(a, b) && Better(b, a) ==> a.score == b.score && a.candidate.itemId == b.candidate.itemId
  {
    StrLeIsTotalOrder();
    assert forall a, b :: StrLe(a, b) || StrLe(b, a);
    assert forall a, b, c :: StrLe(a, b) && StrLe(b, c) ==> StrLe(a, c);
  }

  // ----- the first of each group

  type Order = (Scored, Scored) -> bool

  /** The entry leads its group in the list: nothing of its group stands in front of it. */
  predicate Leads(ranked: seq<Scored>, i: nat)
    requires i < |ranked|
  {
    forall j | 0 <= j < i :: ranked[j].group != ranked[i].group
  }

  /** The leading positions among the first n. */
  function Leaders(ranked: seq<Scored>, n: nat): (r: seq<nat>)
    requires n <= |ranked|
    ensures forall i, j | 0 <= i < j < |r| :: r[i] < r[j]
    ensures forall i | 0 <= i < |r| :: r[i] < n
    ensures forall k :: k in r <==> 0 <= k < n && Leads(ranked, k)
  {
    if n == 0 then []
    else
      var before := Leaders(ranked, n - 1);
      if Leads(ranked, n - 1) then before + [n - 1] else before
  }

  /** From a ranked list, the entries whose group has not come up before. */
  function FirstOfGroups(ranked: seq<Scored>): seq<Scored> {
    Pick(ranked, Leaders(ranked, |ranked|))
  }

  function GroupsBefore(ranked: seq<Scored>, n: nat): set<string>
    requires n <= |ranked|
  {
    set j | 0 <= j < n :: ranked[j].group
  }

  lemma GroupsStep(ranked: seq<Scored>, n: nat)
    requires n < |ranked|
    ensures GroupsBefore(ranked, n + 1) == GroupsBefore(ranked, n) + {ranked[n].group}
    ensures Leads(ranked, n) <==> ranked[n].group !in GroupsBefore(ranked, n)
  {
  }

  /** Where the loop stands after n entries of the ranked list. */
  ghost predicate DedupedAt(ranked: seq<Scored>, n: nat, deduped: seq<Scored>, seenGroups: set<string>)
    requires n <= |ranked|
  {
    deduped == Pick(ranked, Leaders(ranked, n)) && seenGroups == GroupsBefore(ranked, n)
  }

  lemma DedupeStep(ranked: seq<Scored>, n: nat, deduped: seq<Scored>, seenGroups: set<string>)
    requires n < |ranked| && DedupedAt(ranked, n, deduped, seenGroups)
    ensures if ranked[n].group in seenGroups then DedupedAt(ranked, n + 1, deduped, seenGroups)
            else DedupedAt(ranked, n + 1, deduped + [ranked[n]], seenGroups + {ranked[n].group})
  {
    GroupsStep(ranked, n);
    PickSnoc(ranked, Leaders(ranked, n), n);
    assert ranked[n].group in seenGroups ==> seenGroups + {ranked[n].group} == seenGroups;
  }

  lemma DedupeEnds(ranked: seq<Scored>, deduped: seq<Scored>, seenGroups: set<string>)
    requires DedupedAt(ranked, |ranked|, deduped, seenGroups)
    ensures deduped == FirstOfGroups(ranked)
  {
  }

  /** The higher score first; at equal scores the ids, alphabetically. */
  predicate NotWorse(a: Scored, b: Scored) {
    a.score >= b.score && (a.score == b.score ==> StrLe(a.candidate.itemId, b.candidate.itemId))
  }

  /** One entry of each group, none worse than any of its group, in descending order. */
  ghost predicate BestOfGroups(deduped: seq<Scored>, scored: seq<Scored>) {
    && (forall x | x in deduped :: x in scored)
    && (forall i, j | 0 <= i < j < |deduped| ::
          deduped[i].group != deduped[j].group && NotWorse(deduped[i], deduped[j]))
    && (forall y | y in scored :: exists x | x in deduped :: x.group == y.group && NotWorse(x, y))
  }

  lemma {:induction false} LeaderBefore(ranked: seq<Scored>, j: nat) returns (i: nat)
    requires j < |ranked|
    ensures i <= j && Leads(ranked, i) && ranked[i].group == ranked[j].group
  {
    if Leads(ranked, j) {
      i := j;
    } else {
      var k :| 0 <= k < j && ranked[k].group == ranked[j].group;
      i := LeaderBefore(ranked, k);
    }
  }

  lemma GroupHasBest(ranked: seq<Scored>, y: Scored)
    requires forall i, j | 0 <= i < j < |ranked| :: NotWorse(ranked[i], ranked[j])
    requires y in ranked
    ensures exists x | x in FirstOfGroups(ranked) :: x.group == y.group && NotWorse(x, y)
  {
    var j :| 0 <= j < |ranked| && ranked[j] == y;
    var i := LeaderBefore(ranked, j);
    SurvivorAt(ranked, i);
    StrLeTotal(y.candidate.itemId, y.candidate.itemId);
    assert NotWorse(ranked[i], y);
  }

  lemma SortedByScore(scored: seq<Scored>)
    ensures var ranked := SortBy(scored, Better);
      && Sorted(ranked, Better)
      && (forall i, j | 0 <= i < j < |ranked| :: NotWorse(ranked[i], ranked[j]))
      && (forall x :: x in ranked <==> x in scored)
  {
    var ranked := SortBy(scored, Better);
    BetterIsTotalPreorder();
    SortBySorted(scored, Better);
    forall x ensures x in ranked <==> x in scored { SameElements(ranked, scored, x); }
    assert forall i, j | 0 <= i < j < |ranked| :: Better(ranked[i], ranked[j]);
  }

  lemma SurvivorsDescend(ranked: seq<Scored>)
    requires Sorted(ranked, Better)
    ensures var deduped := FirstOfGroups(ranked);
      && (forall x | x in deduped :: x in ranked)
      && (forall i, j | 0 <= i < j < |deduped| ::
            deduped[i].group != deduped[j].group && NotWorse(deduped[i], deduped[j]))
  {
    SurvivorsInOrder(ranked, Better);
    var deduped := FirstOfGroups(ranked);
    assert forall i, j | 0 <= i < j < |deduped| :: Better(deduped[i], deduped[j]);
  }

  lemma DedupedAreBest(scored: seq<Scored>)
    ensures BestOfGroups(FirstOfGroups(SortBy(scored, Better)), scored)
  {
    var ranked := SortBy(scored, Better);
    SortedByScore(scored);
    SurvivorsDescend(ranked);
    forall y | y in scored ensures exists x | x in FirstOfGroups(ranked) :: x.group == y.group && NotWorse(x, y) {
      GroupHasBest(ranked, y);
    }
  }

  method DedupeSourceScored(scoredCandidates: seq<Scored>) returns (deduped: seq<Scored>)
    ensures deduped == FirstOfGroups(SortBy(scoredCandidates, Better))
    ensures BestOfGroups(deduped, scoredCandidates)
  {
    DedupedAreBest(scoredCandidates);
    deduped := [];
    var seenGroups: set<string> := {};
    var ranked := SortBy(scoredCandidates, Better);
    for i := 0 to |ranked|
      invariant DedupedAt(ranked, i, deduped, seenGroups)
    {
      DedupeStep(ranked, i, deduped, seenGroups);
      if ranked[i].group in seenGroups {
        continue;
      }
      seenGroups := seenGroups + {ranked[i].group};
      deduped := deduped + [ranked[i]];
    }
    DedupeEnds(ranked, deduped, seenGroups);
  }

  lemma SurvivorAt(ranked: seq<Scored>, i: nat)
    requires i < |ranked| && Leads(ranked, i)
    ensures ranked[i] in FirstOfGroups(ranked)
  {
    var leaders := Leaders(ranked, |ranked|);
    var k :| 0 <= k < |leaders| && leaders[k] == i;
    assert FirstOfGroups(ranked)[k] == ranked[i];
  }

  lemma SurvivorsInOrder(ranked: seq<Scored>, le: Order)
    requires Sorted(ranked, le)
    ensures Sorted(FirstOfGroups(ranked), le)
    ensures forall i, j | 0 <= i < j < |FirstOfGroups(ranked)| ::
              FirstOfGroups(ranked)[i].group != FirstOfGroups(ranked)[j].group
  {
    var leaders, survivors := Leaders(ranked, |ranked|), FirstOfGroups(ranked);
    forall i, j | 0 <= i < j < |survivors|
      ensures le(survivors[i], survivors[j]) && survivors[i].group != survivors[j].group
    {
      assert leaders[j] in leaders;
      assert Leads(ranked, leaders[j]) && leaders[i] < leaders[j];
    }
  }

  /** x is at least as good as every entry of its duplicate group. */
  ghost predicate Champion(x: Scored, scored: seq<Scored>, le: Order) {
    x in scored && forall y | y in scored && y.group == x.group :: le(x, y)
  }

  lemma SurvivorIsChampion(ranked: seq<Scored>, x: Scored, le: Order)
    requires TotalPreorder(le) && Sorted(ranked, le)
    requires x in FirstOfGroups(ranked)
    ensures Champion(x, ranked, le)
  {
    var leaders := Leaders(ranked, |ranked|);
    var k :| 0 <= k < |leaders| && FirstOfGroups(ranked)[k] == x;
    var i := leaders[k];
    assert i in leaders && ranked[i] == x;
    forall y | y in ranked && y.group == x.group ensures le(x, y) {
      var j :| 0 <= j < |ranked| && ranked[j] == y;
      assert i <= j;
      assert i < j ==> le(ranked[i], ranked[j]);
      assert le(x, x);
    }
  }

  lemma ChampionSurvives(ranked: seq<Scored>, x: Scored, le: Order)
    requires TotalPreorder(le) && Sorted(ranked, le) && NoTies(ranked, le)
    requires Champion(x, ranked, le)
    ensures x in FirstOfGroups(ranked)
  {
    var i := IndexOf(ranked, x);
    forall j | 0 <= j < i ensures ranked[j].group != x.group {
      assert le(ranked[j], ranked[i]) && ranked[j] != x;
      assert !le(x, ranked[j]);
    }
    SurvivorAt(ranked, i);
  }

  // ----- the whole of one reranker

  function Admissible(candidates: seq<RecallCandidate>, policy: Policy): (r: seq<Scored>)
    ensures forall x | x in r :: x.candidate in candidates && x.score == policy.Score(x.candidate)
                                 && x.group == policy.group(x.candidate)
                                 && x.candidate.source == policy.source && !policy.conflicts(x.candidate)
    ensures forall c | c in candidates && c.source == policy.source && !policy.conflicts(c) ::
              Scored(policy.Score(c), policy.group(c), c) in r
  {
    if candidates == [] then []
    else
      var n := |candidates| - 1;
      var before := Admissible(candidates[..n], policy);
      var c := candidates[n];
      assert forall x | x in candidates :: x in candidates[..n] || x == c;
      if c.source == policy.source && !policy.conflicts(c) then before + [Scored(policy.Score(c), policy.group(c), c)]
      else before
  }

  function Selected(candidates: seq<RecallCandidate>, policy: Policy): seq<Scored> {
    TakePy(FirstOfGroups(SortBy(Admissible(candidates, policy), Better)), policy.topN)
  }

  /** `per_item_reason`: one entry for each id of the source, the last candidate of an id counting. */
  function Reasons(candidates: seq<RecallCandidate>, policy: Policy): (r: map<string, Reason>)
    ensures forall c | c in candidates && c.source == policy.source :: c.itemId in r
  {
    if candidates == [] then map[]
    else
      var n := |candidates| - 1;
      var before, c := Reasons(candidates[..n], policy), candidates[n];
      assert forall x | x in candidates :: x in candidates[..n] || x == c;
      if c.source != policy.source then before
      else before[c.itemId := if policy.conflicts(c) then FilteredConflict else ScoredAt(policy.detail(c))]
  }

  /** `per_item_scores`: conflicting candidates have one too. */
  function Details(candidates: seq<RecallCandidate>, policy: Policy): (r: map<string, ScoreDetail>)
    ensures forall c | c in candidates && c.source == policy.source :: c.itemId in r
  {
    if candidates == [] then map[]
    else
      var n := |candidates| - 1;
      var before, c := Details(candidates[..n], policy), candidates[n];
      assert forall x | x in candidates :: x in candidates[..n] || x == c;
      if c.source != policy.source then before else before[c.itemId := policy.detail(c)]
  }

  /** With distinct ids every candidate of the source, and nothing else, has its own detail and its own reason. */
  lemma {:induction false} EachHasItsReason(candidates: seq<RecallCandidate>, policy: Policy, id: string)
    requires UniqueIds(candidates)
    ensures id in Details(candidates, policy)
            <==> exists c | c in candidates :: c.source == policy.source && c.itemId == id
    ensures id in Reasons(candidates, policy) <==> id in Details(candidates, policy)
    ensures forall c | c in candidates && c.source == policy.source && c.itemId == id ::
      && Details(candidates, policy)[id] == policy.detail(c)
      && Reasons(candidates, policy)[id] == if policy.conflicts(c) then FilteredConflict else ScoredAt(policy.detail(c))
  {
    if candidates == [] {
    } else {
      var n := |candidates| - 1;
      EachHasItsReason(candidates[..n], policy, id);
      assert candidates == candidates[..n] + [candidates[n]];
      forall c | c in candidates[..n] ensures c.itemId != candidates[n].itemId {
        var k :| 0 <= k < n && candidates[..n][k] == c;
        assert candidates[k] == c;
      }
    }
  }

  method RerankCandidates(candidates: seq<RecallCandidate>, policy: Policy) returns (r: RerankResult)
    ensures r.selectedItemIds == ItemIds(Selected(candidates, policy)) && r.selectedCount == |r.selectedItemIds|
    ensures r.perItemReason == Reasons(candidates, policy)
    ensures r.perItemScores == Details(candidates, policy)
    ensures r.intentLabel == policy.intentLabel
  {
    var scored: seq<Scored> := [];
    var perItemReason: map<string, Reason> := map[];
    var perItemScores: map<string, ScoreDetail> := map[];
    for i := 0 to |candidates|
      invariant scored == Admissible(candidates[..i], policy)
      invariant perItemReason == Reasons(candidates[..i], policy)
      invariant perItemScores == Details(candidates[..i], policy)
    {
      assert candidates[..i + 1][..i] == candidates[..i];
      var candidate := candidates[i];
      if candidate.source != policy.source {
        continue;
      }
      var detail := policy.detail(candidate);
      perItemScores := perItemScores[candidate.itemId := detail];
      if policy.conflicts(candidate) {
        perItemReason := perItemReason[candidate.itemId := FilteredConflict];
        continue;
      }
      scored := scored + [Scored(detail.finalScore, policy.group(candidate), candidate)];
      perItemReason := perItemReason[candidate.itemId := ScoredAt(detail)];
    }
    assert candidates[..|candidates|] == candidates;
    var deduped := DedupeSourceScored(scored);
    var selected := TakePy(deduped, policy.topN);
    r := RerankResult(ItemIds(selected), |selected|, perItemReason, perItemScores, policy.intentLabel);
  }

  function ItemIds(scored: seq<Scored>): (r: seq<string>)
    ensures |r| == |scored| && forall i | 0 <= i < |r| :: r[i] == scored[i].candidate.itemId
  {
    seq(|scored|, i requires 0 <= i < |scored| => scored[i].candidate.itemId)
  }

  // ----- the main results

  ghost predicate UniqueIds(candidates: seq<RecallCandidate>) {
    forall i, j | 0 <= i < j < |candidates| :: candidates[i].itemId != candidates[j].itemId
  }

  lemma {:induction false} AdmissibleDistinct(candidates: seq<RecallCandidate>, policy: Policy)
    requires UniqueIds(candidates)
    ensures DistinctIds(Admissible(candidates, policy))
  {
    if candidates == [] {
    } else {
      var n := |candidates| - 1;
      AdmissibleDistinct(candidates[..n], policy);
      forall x | x in Admissible(candidates[..n], policy) ensures x.candidate.itemId != candidates[n].itemId {
        var k :| 0 <= k < n && candidates[..n][k] == x.candidate;
      }
    }
  }

  lemma {:induction false} DistinctIdsPermute(a: seq<Scored>, b: seq<Scored>)
    requires multiset(a) == multiset(b) && DistinctIds(a)
    ensures DistinctIds(b)
  {
    assert Distinct(a);
    forall i, j | 0 <= i < j < |b| ensures b[i].candidate.itemId != b[j].candidate.itemId {
      SameElements(a, b, b[i]);
      SameElements(a, b, b[j]);
      if b[i] == b[j] {
        TwiceInMultiset(b, i, j);
        OnceInMultiset(a, b[i]);
      }
    }
  }

  lemma TwiceInMultiset<T>(s: seq<T>, i: nat, j: nat)
    requires i < j < |s| && s[i] == s[j]
    ensures multiset(s)[s[i]] >= 2
  {
    assert s == s[..i] + [s[i]] + s[i + 1..j] + [s[j]] + s[j + 1..];
  }

  lemma {:induction false} OnceInMultiset<T>(s: seq<T>, x: T)
    requires Distinct(s)
    ensures multiset(s)[x] <= 1
  {
    if s == [] {
    } else {
      var n := |s| - 1;
      assert s == s[..n] + [s[n]];
      OnceInMultiset(s[..n], x);
      if s[n] == x { assert x !in s[..n]; }
    }
  }

  /** With distinct ids nothing ties. */
  lemma DistinctIdsNoTies(scored: seq<Scored>)
    requires DistinctIds(scored)
    ensures NoTies(scored, Better)
  {
    BetterIsTotalPreorder();
    forall i, j | 0 <= i < |scored| && 0 <= j < |scored| && Better(scored[i], scored[j]) && Better(scored[j], scored[i])
      ensures scored[i] == scored[j]
    {
      assert scored[i].candidate.itemId == scored[j].candidate.itemId;
      assert i == j;
    }
  }

  lemma RankedFacts(candidates: seq<RecallCandidate>, policy: Policy) returns (ranked: seq<Scored>)
    requires UniqueIds(candidates)
    ensures ranked == SortBy(Admissible(candidates, policy), Better)
    ensures TotalPreorder(Better) && Sorted(ranked, Better) && NoTies(ranked, Better)
    ensures forall x :: x in ranked <==> x in Admissible(candidates, policy)
  {
    var scored := Admissible(candidates, policy);
    ranked := SortBy(scored, Better);
    BetterIsTotalPreorder();
    AdmissibleDistinct(candidates, policy);
    DistinctIdsPermute(scored, ranked);
    DistinctIdsNoTies(ranked);
    SortBySorted(scored, Better);
    forall x ensures x in ranked <==> x in scored { SameElements(ranked, scored, x); }
  }

  lemma ChampionTransfers(x: Scored, a: seq<Scored>, b: seq<Scored>, le: Order)
    requires forall y :: y in a <==> y in b
    ensures Champion(x, a, le) <==> Champion(x, b, le)
  {
  }

  /** The survivors of deduplication are exactly the champions of their groups. */
  lemma SurvivorsAreChampions(candidates: seq<RecallCandidate>, policy: Policy, x: Scored)
    requires UniqueIds(candidates)
    ensures x in FirstOfGroups(SortBy(Admissible(candidates, policy), Better))
            <==> Champion(x, Admissible(candidates, policy), Better)
  {
    var ranked := RankedFacts(candidates, policy);
    ChampionTransfers(x, ranked, Admissible(candidates, policy), Better);
    if x in FirstOfGroups(ranked) {
      SurvivorIsChampion(ranked, x, Better);
    } else if Champion(x, ranked, Better) {
      ChampionSurvives(ranked, x, Better);
    }
  }

  /** y loses: to a better one of its own group, or to every one of n selected. */
  ghost predicate Beaten(y: Scored, scored: seq<Scored>, selected: seq<Scored>, n: int, le: Order) {
    || (exists x | x in scored :: x.group == y.group && x != y && le(x, y))
    || (|selected| == n && forall x | x in selected :: le(x, y))
  }

  lemma UnselectedIsBeaten(ranked: seq<Scored>, selected: seq<Scored>, n: nat, y: Scored, le: Order)
    requires TotalPreorder(le) && Sorted(ranked, le) && NoTies(ranked, le)
    requires selected == TakePy(FirstOfGroups(ranked), n)
    requires y in ranked && y !in selected
    ensures Beaten(y, ranked, selected, n, le)
  {
    var survivors := FirstOfGroups(ranked);
    if y in survivors {
      SurvivorsInOrder(ranked, le);
      var k :| 0 <= k < |survivors| && survivors[k] == y;
      forall j | 0 <= j < |selected| ensures survivors[j] in selected { assert selected[j] == survivors[j]; }
      forall x | x in selected ensures le(x, y) {
        var j :| 0 <= j < |selected| && selected[j] == x;
        assert survivors[j] == x && j < k;
      }
    } else {
      if Champion(y, ranked, le) { ChampionSurvives(ranked, y, le); }
      var x :| x in ranked && x.group == y.group && !le(y, x);
      assert le(x, y) && le(y, y);
    }
  }

  /** At most n items, one per group, each the champion of its group, in ranking order; and what is
      neither conflicting nor selected is beaten inside its group or by all of the n selected. */
  lemma SelectionIsChampions(candidates: seq<RecallCandidate>, policy: Policy)
    requires UniqueIds(candidates) && policy.topN >= 0
    ensures var scored, selected := Admissible(candidates, policy), Selected(candidates, policy);
            && |selected| <= policy.topN
            && Sorted(selected, Better)
            && (forall i, j | 0 <= i < j < |selected| :: selected[i].group != selected[j].group)
            && (forall x | x in selected :: Champion(x, scored, Better))
            && (forall y | y in scored && y !in selected :: Beaten(y, scored, selected, policy.topN, Better))
  {
    var scored, selected := Admissible(candidates, policy), Selected(candidates, policy);
    var ranked := RankedFacts(candidates, policy);
    SurvivorsInOrder(ranked, Better);
    forall x | x in selected ensures Champion(x, scored, Better) {
      assert x in FirstOfGroups(ranked);
      SurvivorsAreChampions(candidates, policy, x);
    }
    forall y | y in scored && y !in selected ensures Beaten(y, scored, selected, policy.topN, Better) {
      UnselectedIsBeaten(ranked, selected, policy.topN, y, Better);
      if x :| x in ranked && x.group == y.group && x != y && Better(x, y) {
        assert x in scored;
      }
    }
  }

  /** In terms of scores and ids, over the candidates of the source without a conflict: what is selected is not worse
      than any of its group, the selection descends, and what is not selected has a group-mate of at least its score,
      or there are top_n selected of at least its score. */
  lemma SelectionByScore(candidates: seq<RecallCandidate>, policy: Policy)
    requires UniqueIds(candidates) && policy.topN >= 0
    ensures var selected := Selected(candidates, policy);
      && (forall i, j | 0 <= i < j < |selected| :: BeatsOrTies(selected[i].candidate, selected[j].candidate, policy))
      && (forall x | x in selected :: IsAdmitted(x.candidate, candidates, policy))
      && (forall x, c | x in selected && IsAdmitted(c, candidates, policy) && SameGroup(c, x.candidate, policy) ::
            BeatsOrTies(x.candidate, c, policy))
      && (forall c | IsAdmitted(c, candidates, policy) :: Settled(c, candidates, selected, policy))
  {
    var selected := Selected(candidates, policy);
    SelectionDescends(candidates, policy);
    forall x, c | x in selected && IsAdmitted(c, candidates, policy) && SameGroup(c, x.candidate, policy)
      ensures BeatsOrTies(x.candidate, c, policy)
    {
      SelectedBeatsGroup(candidates, policy, x, c);
    }
    forall c | IsAdmitted(c, candidates, policy) ensures Settled(c, candidates, selected, policy) {
      UnselectedSettled(candidates, policy, c);
    }
  }

  predicate SameGroup(a: RecallCandidate, b: RecallCandidate, policy: Policy) { policy.group(a) == policy.group(b) }

  lemma SelectionDescends(candidates: seq<RecallCandidate>, policy: Policy)
    requires UniqueIds(candidates) && policy.topN >= 0
    ensures var selected := Selected(candidates, policy);
      && (forall i, j | 0 <= i < j < |selected| :: BeatsOrTies(selected[i].candidate, selected[j].candidate, policy))
      && (forall x | x in selected :: IsAdmitted(x.candidate, candidates, policy))
  {
    var selected := Selected(candidates, policy);
    SelectionIsChampions(candidates, policy);
    assert forall x | x in selected :: x in Admissible(candidates, policy);
    assert forall i, j | 0 <= i < j < |selected| :: Better(selected[i], selected[j]);
  }

  lemma SelectedBeatsGroup(candidates: seq<RecallCandidate>, policy: Policy, x: Scored, c: RecallCandidate)
    requires UniqueIds(candidates) && policy.topN >= 0
    requires x in Selected(candidates, policy) && IsAdmitted(c, candidates, policy) && SameGroup(c, x.candidate, policy)
    ensures BeatsOrTies(x.candidate, c, policy)
  {
    SelectionIsChampions(candidates, policy);
    assert Champion(x, Admissible(candidates, policy), Better);
    assert Scored(policy.Score(c), policy.group(c), c) in Admissible(candidates, policy);
  }

  predicate IsAdmitted(c: RecallCandidate, candidates: seq<RecallCandidate>, policy: Policy) {
    c in candidates && c.source == policy.source && !policy.conflicts(c)
  }

  predicate BeatsOrTies(a: RecallCandidate, b: RecallCandidate, policy: Policy) {
    policy.Score(a) > policy.Score(b) || (policy.Score(a) == policy.Score(b) && StrLe(a.itemId, b.itemId))
  }

  /** c is selected, or loses to a group-mate, or to top_n selected. */
  ghost predicate Settled(c: RecallCandidate, candidates: seq<RecallCandidate>, selected: seq<Scored>, policy: Policy) {
    || (exists x | x in selected :: x.candidate == c)
    || (exists d | d != c && IsAdmitted(d, candidates, policy) && policy.group(d) == policy.group(c) ::
          policy.Score(d) >= policy.Score(c))
    || (|selected| == policy.topN && forall x | x in selected :: policy.Score(x.candidate) >= policy.Score(c))
  }

  lemma UnselectedSettled(candidates: seq<RecallCandidate>, policy: Policy, c: RecallCandidate)
    requires UniqueIds(candidates) && policy.topN >= 0 && IsAdmitted(c, candidates, policy)
    ensures Settled(c, candidates, Selected(candidates, policy), policy)
  {
    var scored, selected := Admissible(candidates, policy), Selected(candidates, policy);
    var y := Scored(policy.Score(c), policy.group(c), c);
    SelectionIsChampions(candidates, policy);
    if y !in selected {
      assert Beaten(y, scored, selected, policy.topN, Better);
      if x :| x in scored && x.group == y.group && x != y && Better(x, y) {
        assert IsAdmitted(x.candidate, candidates, policy) && policy.Score(x.candidate) >= policy.Score(c);
      } else {
        forall x | x in selected ensures policy.Score(x.candidate) >= policy.Score(c) {
          assert Champion(x, scored, Better) && Better(x, y);
        }
      }
    }
  }

  lemma {:induction false} AdmissiblePermutes(a: seq<RecallCandidate>, b: seq<RecallCandidate>, policy: Policy)
    requires UniqueIds(a) && UniqueIds(b) && multiset(a) == multiset(b)
    ensures multiset(Admissible(a, policy)) == multiset(Admissible(b, policy))
  {
    var sa, sb := Admissible(a, policy), Admissible(b, policy);
    AdmissibleDistinct(a, policy);
    AdmissibleDistinct(b, policy);
    assert Distinct(sa) && Distinct(sb);
    forall x: Scored ensures multiset(sa)[x] == multiset(sb)[x] {
      SameElements(a, b, x.candidate);
      assert x in sa <==> x in sb;
      OnceInMultiset(sa, x);
      OnceInMultiset(sb, x);
      assert x in sa <==> x in multiset(sa);
      assert x in sb <==> x in multiset(sb);
    }
  }

  /** With distinct ids the order the candidates arrive in is irrelevant. */
  lemma SelectionIgnoresOrder(a: seq<RecallCandidate>, b: seq<RecallCandidate>, policy: Policy)
    requires UniqueIds(a) && UniqueIds(b) && multiset(a) == multiset(b)
    ensures Selected(a, policy) == Selected(b, policy)
  {
    var sa, sb := Admissible(a, policy), Admissible(b, policy);
    AdmissiblePermutes(a, b, policy);
    AdmissibleDistinct(a, policy);
    BetterIsTotalPreorder();
    DistinctIdsNoTies(sa);
    SortIgnoresOrder(sa, sb, Better);
  }
}
