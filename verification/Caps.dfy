/** The greedy caps applied after fusion: a total cap and one cap for each of two sources.
    A selection is a strictly increasing sequence of positions in the ranking. */
module Caps {
  import opened Basics
  import opened RecallModels
  import opened Sequences

  datatype CapConfig = CapConfig(maxCandidates: int, maxProfile: int, maxSlice: int)

  lemma SourcesDiffer()
    ensures PROFILE != EPISODE_SLICE
  {
    assert |PROFILE| != |EPISODE_SLICE|;
  }

  function AtLeastZero(n: int): nat { if n < 0 then 0 else n }

  // ----- selections and how they are counted

  ghost predicate IsSelection(picks: seq<nat>, size: nat) {
    && (forall i, j | 0 <= i < j < |picks| :: picks[i] < picks[j])
    && (forall i | 0 <= i < |picks| :: picks[i] < size)
  }

  /** How many of the first n positions are picked. */
  function Below(picks: seq<nat>, n: nat): (r: nat)
    ensures r <= n
  {
    if n == 0 then 0 else Below(picks, n - 1) + if (n - 1) in picks then 1 else 0
  }

  /** How many of the first n positions are picked and come from the given source. */
  function BelowFrom(sources: seq<string>, picks: seq<nat>, source: string, n: nat): nat
    requires n <= |sources|
  {
    if n == 0 then 0
    else BelowFrom(sources, picks, source, n - 1)
         + if (n - 1) in picks && sources[n - 1] == source then 1 else 0
  }

  /** Within the total cap and both per-source caps; a negative cap admits nothing. */
  ghost predicate Feasible(sources: seq<string>, picks: seq<nat>, config: CapConfig) {
    && IsSelection(picks, |sources|)
    && |picks| <= AtLeastZero(config.maxCandidates)
    && BelowFrom(sources, picks, PROFILE, |sources|) <= AtLeastZero(config.maxProfile)
    && BelowFrom(sources, picks, EPISODE_SLICE, |sources|) <= AtLeastZero(config.maxSlice)
  }

  // ----- what the code picks

  /** Whether the scan admits position n, given what it picked before. */
  predicate Admits(sources: seq<string>, picks: seq<nat>, n: nat, config: CapConfig)
    requires n < |sources|
  {
    && |picks| < config.maxCandidates
    && (sources[n] == PROFILE ==> BelowFrom(sources, picks, PROFILE, n) < config.maxProfile)
    && (sources[n] == EPISODE_SLICE ==> BelowFrom(sources, picks, EPISODE_SLICE, n) < config.maxSlice)
  }

  function GreedyPicks(sources: seq<string>, n: nat, config: CapConfig): (picks: seq<nat>)
    requires n <= |sources|
  {
    if n == 0 then []
    else
      var before := GreedyPicks(sources, n - 1, config);
      if Admits(sources, before, n - 1, config) then before + [n - 1] else before
  }

  lemma {:induction false} GreedyIsSelection(sources: seq<string>, n: nat, config: CapConfig)
    requires n <= |sources|
    ensures IsSelection(GreedyPicks(sources, n, config), n)
  {
    if n == 0 {
    } else {
      GreedyIsSelection(sources, n - 1, config);
    }
  }

  // ----- counting

  /** Appending a later position does not change what lies below it. */
  lemma {:induction false} BelowUnaffected(sources: seq<string>, picks: seq<nat>, source: string, n: nat, m: nat)
    requires n <= m && n <= |sources|
    ensures BelowFrom(sources, picks + [m], source, n) == BelowFrom(sources, picks, source, n)
    ensures Below(picks + [m], n) == Below(picks, n)
  {
    if n == 0 {
    } else {
      BelowUnaffected(sources, picks, source, n - 1, m);
    }
  }

  lemma {:induction false} BelowIsRank(picks: seq<nat>, size: nat, n: nat, k: nat)
    requires IsSelection(picks, size)
    requires k <= |picks|
    requires k < |picks| ==> n <= picks[k]
    requires k > 0 ==> picks[k - 1] < n
    ensures Below(picks, n) == k
  {
    if n == 0 {
    } else {
      if k > 0 && picks[k - 1] == n - 1 {
        BelowIsRank(picks, size, n - 1, k - 1);
      } else {
        assert forall j | 0 <= j < |picks| :: picks[j] <= if j < k then picks[k - 1] else picks[j];
        assert (n - 1) !in picks;
        BelowIsRank(picks, size, n - 1, k);
      }
    }
  }

  /** The other positions: neither a profile item nor an episode slice. */
  function OthersBelow(sources: seq<string>, n: nat): nat
    requires n <= |sources|
  {
    if n == 0 then 0
    else OthersBelow(sources, n - 1) + if sources[n - 1] !in {PROFILE, EPISODE_SLICE} then 1 else 0
  }

  /** How many of the first n positions come from the source at all. */
  function Supply(sources: seq<string>, source: string, n: nat): (r: nat)
    requires n <= |sources|
  {
    if n == 0 then 0 else Supply(sources, source, n - 1) + if sources[n - 1] == source then 1 else 0
  }

  /** The most any selection can take from the first n positions. */
  function Room(sources: seq<string>, n: nat, config: CapConfig): nat
    requires n <= |sources|
  {
    Min(AtLeastZero(config.maxProfile), Supply(sources, PROFILE, n))
    + Min(AtLeastZero(config.maxSlice), Supply(sources, EPISODE_SLICE, n))
    + OthersBelow(sources, n)
  }

  lemma {:induction false} BelowFromMonotone(sources: seq<string>, picks: seq<nat>, source: string, n: nat, m: nat)
    requires n <= m <= |sources|
    ensures BelowFrom(sources, picks, source, n) <= BelowFrom(sources, picks, source, m)
  {
    if n >= m {
    } else {
      BelowFromMonotone(sources, picks, source, n, m - 1);
    }
  }

  lemma {:induction false} BelowSplits(sources: seq<string>, picks: seq<nat>, n: nat)
    requires n <= |sources|
    ensures BelowFrom(sources, picks, PROFILE, n) <= Supply(sources, PROFILE, n)
    ensures BelowFrom(sources, picks, EPISODE_SLICE, n) <= Supply(sources, EPISODE_SLICE, n)
    ensures Below(picks, n) <= BelowFrom(sources, picks, PROFILE, n)
                               + BelowFrom(sources, picks, EPISODE_SLICE, n) + OthersBelow(sources, n)
  {
    if n == 0 {
    } else {
      BelowSplits(sources, picks, n - 1);
    }
  }

  lemma BelowAtMostSize(picks: seq<nat>, size: nat, n: nat)
    requires IsSelection(picks, size)
    ensures Below(picks, n) <= |picks|
  {
    var k := 0;
    while k < |picks| && picks[k] < n
      invariant k <= |picks|
      invariant k > 0 ==> picks[k - 1] < n
    {
      k := k + 1;
    }
    BelowIsRank(picks, size, n, k);
  }

  lemma FeasibleBound(sources: seq<string>, picks: seq<nat>, config: CapConfig, n: nat)
    requires Feasible(sources, picks, config) && n <= |sources|
    ensures Below(picks, n) <= Min(AtLeastZero(config.maxCandidates), Room(sources, n, config))
  {
    BelowSplits(sources, picks, n);
    BelowFromMonotone(sources, picks, PROFILE, n, |sources|);
    BelowFromMonotone(sources, picks, EPISODE_SLICE, n, |sources|);
    BelowAtMostSize(picks, |sources|, n);
  }

  /** One step of the scan, in terms of the picks and of the counter for one source. */
  lemma GreedyStep(sources: seq<string>, n: nat, config: CapConfig, source: string)
    requires n < |sources|
    ensures var before, after := GreedyPicks(sources, n, config), GreedyPicks(sources, n + 1, config);
            var taken := Admits(sources, before, n, config);
            && IsSelection(after, n + 1)
            && after == (if taken then before + [n] else before)
            && BelowFrom(sources, after, source, n + 1)
               == BelowFrom(sources, before, source, n) + (if taken && sources[n] == source then 1 else 0)
  {
    var before := GreedyPicks(sources, n, config);
    GreedyIsSelection(sources, n, config);
    GreedyIsSelection(sources, n + 1, config);
    BelowUnaffected(sources, before, source, n, n);
  }

  lemma CountSnoc(sources: seq<string>, picks: seq<nat>, source: string, n: nat)
    requires n < |sources| && IsSelection(picks, n)
    ensures BelowFrom(sources, picks + [n], source, n + 1)
            == BelowFrom(sources, picks, source, n) + if sources[n] == source then 1 else 0
    ensures multiset(Pick(sources, picks + [n]))[source]
            == multiset(Pick(sources, picks))[source] + if sources[n] == source then 1 else 0
  {
    BelowUnaffected(sources, picks, source, n, n);
    PickSnoc(sources, picks, n);
    assert n in picks + [n];
  }

  /** Behind the last pick nothing more is counted. */
  lemma {:induction false} NothingBehind(sources: seq<string>, picks: seq<nat>, source: string, k: nat, n: nat)
    requires k <= n <= |sources| && forall x | x in picks :: x < k
    ensures BelowFrom(sources, picks, source, n) == BelowFrom(sources, picks, source, k)
  {
    if n == k {
    } else {
      NothingBehind(sources, picks, source, k, n - 1);
    }
  }

  lemma FrontIsSelection(picks: seq<nat>, n: nat)
    requires IsSelection(picks, n) && picks != []
    ensures var k := picks[|picks| - 1];
            && picks[..|picks| - 1] + [k] == picks
            && IsSelection(picks[..|picks| - 1], k) && k < n && forall x | x in picks :: x < k + 1
  {
    var m := |picks| - 1;
    forall x | x in picks ensures x < picks[m] + 1 {
      var i :| 0 <= i < |picks| && picks[i] == x;
      assert i < m ==> picks[i] < picks[m];
    }
  }

  /** The picked positions hold as many of a source as are picked of it. */
  lemma {:induction false} SelectionCounts(sources: seq<string>, picks: seq<nat>, source: string, n: nat)
    requires n <= |sources| && IsSelection(picks, n)
    ensures multiset(Pick(sources, picks))[source] == BelowFrom(sources, picks, source, n)
    decreases |picks|
  {
    if picks == [] {
      NothingBehind(sources, picks, source, 0, n);
    } else {
      var front, k := picks[..|picks| - 1], picks[|picks| - 1];
      FrontIsSelection(picks, n);
      SelectionCounts(sources, front, source, k);
      CountSnoc(sources, front, source, k);
      NothingBehind(sources, picks, source, k + 1, n);
    }
  }

  /** A selection is within the caps when it is no longer than the total cap and holds no more of a source than that
      source's cap; negative caps count as zero. */
  lemma FeasibleMeans(sources: seq<string>, picks: seq<nat>, config: CapConfig)
    requires IsSelection(picks, |sources|)
    ensures Feasible(sources, picks, config) <==>
      (&& |picks| <= Max(0, config.maxCandidates)
       && multiset(Pick(sources, picks))["profile"] <= Max(0, config.maxProfile)
       && multiset(Pick(sources, picks))["episode_slice"] <= Max(0, config.maxSlice))
  {
    SelectionCounts(sources, picks, "profile", |sources|);
    SelectionCounts(sources, picks, "episode_slice", |sources|);
  }

  /** Where the scan stands: what it picked, and what the positions behind it offered. */
  datatype Tally = Tally(all: nat, profile: nat, slice: nat, profileSupply: nat, sliceSupply: nat, others: nat)

  function TallyAt(sources: seq<string>, n: nat, config: CapConfig): Tally
    requires n <= |sources|
  {
    var g := GreedyPicks(sources, n, config);
    Tally(|g|, BelowFrom(sources, g, PROFILE, n), BelowFrom(sources, g, EPISODE_SLICE, n),
          Supply(sources, PROFILE, n), Supply(sources, EPISODE_SLICE, n), OthersBelow(sources, n))
  }

  function Advance(t: Tally, isProfile: bool, isSlice: bool, config: CapConfig): Tally {
    var taken := && t.all < config.maxCandidates
                 && (isProfile ==> t.profile < config.maxProfile)
                 && (isSlice ==> t.slice < config.maxSlice);
    Tally(if taken then t.all + 1 else t.all,
          if taken && isProfile then t.profile + 1 else t.profile,
          if taken && isSlice then t.slice + 1 else t.slice,
          if isProfile then t.profileSupply + 1 else t.profileSupply,
          if isSlice then t.sliceSupply + 1 else t.sliceSupply,
          if isProfile || isSlice then t.others else t.others + 1)
  }

  /** Everything there was room for is picked. */
  ghost predicate Full(t: Tally, config: CapConfig) {
    var profileMost := Min(AtLeastZero(config.maxProfile), t.profileSupply);
    var sliceMost := Min(AtLeastZero(config.maxSlice), t.sliceSupply);
    var room := profileMost + sliceMost + t.others;
    && t.all == Min(AtLeastZero(config.maxCandidates), room)
    && t.profile <= profileMost && t.slice <= sliceMost
    && (room <= config.maxCandidates ==> t.profile == profileMost && t.slice == sliceMost)
  }

  lemma AdvanceKeepsFull(t: Tally, isProfile: bool, isSlice: bool, config: CapConfig)
    requires Full(t, config) && !(isProfile && isSlice)
    ensures Full(Advance(t, isProfile, isSlice, config), config)
  {
  }

  lemma TallyStep(sources: seq<string>, n: nat, config: CapConfig)
    requires n < |sources|
    ensures TallyAt(sources, n + 1, config)
         == Advance(TallyAt(sources, n, config), sources[n] == PROFILE, sources[n] == EPISODE_SLICE, config)
  {
    GreedyStep(sources, n, config, PROFILE);
    GreedyStep(sources, n, config, EPISODE_SLICE);
  }

  ghost predicate FullAt(sources: seq<string>, n: nat, config: CapConfig)
    requires n <= |sources|
  {
    Full(TallyAt(sources, n, config), config)
  }

  lemma FullAtStart(sources: seq<string>, config: CapConfig)
    ensures FullAt(sources, 0, config)
  {
  }

  lemma FullStep(sources: seq<string>, n: nat, config: CapConfig)
    requires n < |sources| && FullAt(sources, n, config)
    ensures FullAt(sources, n + 1, config)
  {
    SourcesDiffer();
    TallyStep(sources, n, config);
    AdvanceKeepsFull(TallyAt(sources, n, config), sources[n] == PROFILE, sources[n] == EPISODE_SLICE, config);
  }

  /** The scan takes from every prefix as much as there is room for. */
  lemma {:induction false} GreedyFillsRoom(sources: seq<string>, n: nat, config: CapConfig)
    requires n <= |sources|
    ensures FullAt(sources, n, config)
  {
    if n == 0 {
      FullAtStart(sources, config);
    } else {
      GreedyFillsRoom(sources, n - 1, config);
      FullStep(sources, n - 1, config);
    }
  }

  lemma GreedyCount(sources: seq<string>, n: nat, config: CapConfig)
    requires n <= |sources|
    ensures |GreedyPicks(sources, n, config)| == Min(AtLeastZero(config.maxCandidates), Room(sources, n, config))
  {
    GreedyFillsRoom(sources, n, config);
  }

  lemma {:induction false} GreedyPrefix(sources: seq<string>, n: nat, m: nat, config: CapConfig)
    requires n <= m <= |sources|
    ensures GreedyPicks(sources, n, config) <= GreedyPicks(sources, m, config)
    ensures forall k | |GreedyPicks(sources, n, config)| <= k < |GreedyPicks(sources, m, config)| ::
              GreedyPicks(sources, m, config)[k] >= n
  {
    if n >= m {
    } else {
      GreedyPrefix(sources, n, m - 1, config);
    }
  }

  lemma GreedyFeasible(sources: seq<string>, config: CapConfig)
    ensures Feasible(sources, GreedyPicks(sources, |sources|, config), config)
  {
    GreedyIsSelection(sources, |sources|, config);
    GreedyFillsRoom(sources, |sources|, config);
  }

  // ----- the main results

  /** The k-th pick of the scan stands at least as high in the ranking as the k-th pick of any
      selection within the caps, and the scan picks at least as many. */
  lemma GreedyDominates(sources: seq<string>, picks: seq<nat>, config: CapConfig)
    requires Feasible(sources, picks, config)
    ensures var g := GreedyPicks(sources, |sources|, config);
            && |picks| <= |g|
            && forall k | 0 <= k < |picks| :: g[k] <= picks[k]
  {
    var g := GreedyPicks(sources, |sources|, config);
    GreedyIsSelection(sources, |sources|, config);
    BelowIsRank(picks, |sources|, |sources|, |picks|);
    FeasibleBound(sources, picks, config, |sources|);
    GreedyCount(sources, |sources|, config);
    forall k | 0 <= k < |picks| ensures g[k] <= picks[k] {
      var n := picks[k] + 1;
      BelowIsRank(picks, |sources|, n, k + 1);
      FeasibleBound(sources, picks, config, n);
      GreedyCount(sources, n, config);
      var part := GreedyPicks(sources, n, config);
      GreedyPrefix(sources, n, |sources|, config);
      GreedyIsSelection(sources, n, config);
      assert g[k] == part[k];
    }
  }

  /** From each source the scan keeps the head of that source's own ranking. */
  lemma GreedyKeepsSourcePrefix(sources: seq<string>, config: CapConfig, i: nat, j: nat)
    requires i < j < |sources| && sources[i] == sources[j]
    requires j in GreedyPicks(sources, |sources|, config)
    ensures i in GreedyPicks(sources, |sources|, config)
  {
    var g := GreedyPicks(sources, |sources|, config);
    GreedyPrefix(sources, j + 1, |sources|, config);
    GreedyPrefix(sources, i + 1, |sources|, config);
    assert j in GreedyPicks(sources, j + 1, config);
    GreedyIsSelection(sources, j, config);
    var atI, atJ := GreedyPicks(sources, i, config), GreedyPicks(sources, j, config);
    assert Admits(sources, atJ, j, config);
    GreedyPrefix(sources, i, j, config);
    assert forall x | 0 <= x < i :: x in atI <==> x in atJ;
    BelowSame(sources, atI, atJ, PROFILE, i);
    BelowSame(sources, atI, atJ, EPISODE_SLICE, i);
    BelowFromMonotone(sources, atJ, PROFILE, i, j);
    BelowFromMonotone(sources, atJ, EPISODE_SLICE, i, j);
    assert Admits(sources, atI, i, config);
    assert g[|atI|] == GreedyPicks(sources, i + 1, config)[|atI|] == i;
  }

  lemma {:induction false} BelowSame(sources: seq<string>, a: seq<nat>, b: seq<nat>, source: string, n: nat)
    requires n <= |sources|
    requires forall x | 0 <= x < n :: x in a <==> x in b
    ensures BelowFrom(sources, a, source, n) == BelowFrom(sources, b, source, n)
  {
    if n == 0 {
    } else {
      BelowSame(sources, a, b, source, n - 1);
    }
  }
}
