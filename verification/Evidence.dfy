/** The retrieval evidence a candidate carries: an object whose fields fusion updates in place. */
module Evidence {
  import opened Basics
  import opened PyText
  import opened Sequences

  /** The field values of a RetrievalEvidence object at one moment. */
  datatype EvidenceView = EvidenceView(
    itemId: string,
    source: string,
    lanes: seq<string>,
    laneScores: map<string, real>,
    laneRanks: map<string, int>,
    fusedScore: real,
    matchedDomains: seq<string>,
    matchedKeywords: seq<string>,
    matchedEntities: seq<string>,
    destinationMatchType: string,
    semanticScore: Option<real>,
    lexicalScore: Option<real>,
    temporalScore: Option<real>,
    retrievalReason: string
  )

  // ----- what merging computes

  function AppendUnique(target: seq<string>, values: seq<string>): (r: seq<string>)
    decreases |values|
  {
    if values == [] then target
    else AppendUnique(if values[0] in target then target else target + [values[0]], values[1..])
  }

  /** Appending keeps what was there in front, ends with the union, and adds nothing twice. */
  lemma {:induction false} AppendUniqueIsUnion(target: seq<string>, values: seq<string>)
    ensures target <= AppendUnique(target, values)
    ensures forall x :: x in AppendUnique(target, values) <==> x in target || x in values
    ensures Distinct(target) ==> Distinct(AppendUnique(target, values))
    decreases |values|
  {
    if values == [] {
    } else {
      AppendUniqueIsUnion(if values[0] in target then target else target + [values[0]], values[1..]);
    }
  }

  function MaxOptional(left: Option<real>, right: Option<real>): Option<real> {
    if left.None? then right
    else if right.None? then left
    else if right.value > left.value then right else left
  }

  function MergedMatchType(target: string, source: string): string {
    if source != "" && source != "none" && (target == "" || target == "none") then source else target
  }

  function StripAll(parts: seq<string>): (r: seq<string>)
    ensures |r| == |parts| && forall i | 0 <= i < |r| :: r[i] == Strip(parts[i])
  {
    Mapped(Strip, parts)
  }

  /** The reasons in a retrieval reason. */
  function ReasonsOf(reason: string): seq<string> { StripAll(SplitOn(reason, ';')) }

  function MergedReason(target: string, source: string): string {
    if source == "" || source in ReasonsOf(target) then target
    else if target != "" then target + "; " + source
    else source
  }

  lemma StripAllConcat(a: seq<string>, b: seq<string>)
    ensures StripAll(a + b) == StripAll(a) + StripAll(b)
  {
  }

  /** A space in front changes no reason. */
  lemma SpacedReasons(source: string)
    ensures ReasonsOf([' '] + source) == ReasonsOf(source)
  {
    var spaced, parts := [' '] + source, SplitOn(source, ';');
    assert spaced[1..] == source;
    var more := SplitOn(spaced, ';');
    assert more == [[' '] + parts[0]] + parts[1..];
    StripLeading(parts[0], ' ');
    assert forall i | 0 <= i < |parts| :: Strip(more[i]) == Strip(parts[i]);
  }

  /** Joined reasons are the reasons of both, in order. */
  lemma JoinedReasons(target: string, source: string)
    ensures ReasonsOf(target + "; " + source) == ReasonsOf(target) + ReasonsOf(source)
  {
    var spaced := [' '] + source;
    assert target + "; " + source == target + [';'] + spaced;
    SplitConcat(target, spaced, ';');
    StripAllConcat(SplitOn(target, ';'), SplitOn(spaced, ';'));
    SpacedReasons(source);
  }

  function Merged(target: EvidenceView, source: EvidenceView): EvidenceView {
    target.(
      matchedDomains := AppendUnique(target.matchedDomains, source.matchedDomains),
      matchedKeywords := AppendUnique(target.matchedKeywords, source.matchedKeywords),
      matchedEntities := AppendUnique(target.matchedEntities, source.matchedEntities),
      semanticScore := MaxOptional(target.semanticScore, source.semanticScore),
      lexicalScore := MaxOptional(target.lexicalScore, source.lexicalScore),
      temporalScore := MaxOptional(target.temporalScore, source.temporalScore),
      destinationMatchType := MergedMatchType(target.destinationMatchType, source.destinationMatchType),
      retrievalReason := MergedReason(target.retrievalReason, source.retrievalReason))
  }

  /** What one lane's hit leaves in the evidence. */
  function Ranked(view: EvidenceView, lane: string, rank: nat, contribution: real): EvidenceView {
    view.(
      lanes := if lane in view.lanes then view.lanes else view.lanes + [lane],
      laneRanks := view.laneRanks[lane := rank],
      laneScores := view.laneScores[lane := contribution],
      fusedScore := view.fusedScore + contribution)
  }

  method AppendAllUnique(target: seq<string>, values: seq<string>) returns (r: seq<string>)
    ensures r == AppendUnique(target, values)
  {
    r := target;
    for i := 0 to |values|
      invariant AppendUnique(target, values) == AppendUnique(r, values[i..])
    {
      assert values[i..][1..] == values[i + 1..];
      if values[i] !in r {
        r := r + [values[i]];
      }
    }
  }

  /** Nothing changes for an empty reason or one that is there already; otherwise the reasons of the source follow
      those of the target. */
  method JoinReasons(target: string, source: string) returns (r: string)
    ensures r == target <==> source == "" || source in ReasonsOf(target)
    ensures r != target ==> ReasonsOf(r) == (if target == "" then [] else ReasonsOf(target)) + ReasonsOf(source)
    ensures r == MergedReason(target, source)
  {
    JoinedReasons(target, source);
    r := target;
    if source != "" {
      var reasons := ReasonsOf(target);
      if source !in reasons {
        if target != "" {
          r := target + "; " + source;
        } else {
          r := source;
        }
      }
    }
  }

  class RetrievalEvidence {
    var itemId: string
    var source: string
    var lanes: seq<string>
    var laneScores: map<string, real>
    var laneRanks: map<string, int>
    var fusedScore: real
    var matchedDomains: seq<string>
    var matchedKeywords: seq<string>
    var matchedEntities: seq<string>
    var destinationMatchType: string
    var semanticScore: Option<real>
    var lexicalScore: Option<real>
    var temporalScore: Option<real>
    var retrievalReason: string

    function View(): EvidenceView
      reads this
    {
      EvidenceView(itemId, source, lanes, laneScores, laneRanks, fusedScore, matchedDomains,
                   matchedKeywords, matchedEntities, destinationMatchType, semanticScore,
                   lexicalScore, temporalScore, retrievalReason)
    }

    /** A copy that starts again from a fused score of zero. */
    constructor CopyOf(original: RetrievalEvidence)
      ensures View() == old(original.View()).(fusedScore := 0.0)
    {
      itemId := original.itemId;
      source := original.source;
      lanes := original.lanes;
      laneScores := original.laneScores;
      laneRanks := original.laneRanks;
      fusedScore := 0.0;
      matchedDomains := original.matchedDomains;
      matchedKeywords := original.matchedKeywords;
      matchedEntities := original.matchedEntities;
      destinationMatchType := original.destinationMatchType;
      semanticScore := original.semanticScore;
      lexicalScore := original.lexicalScore;
      temporalScore := original.temporalScore;
      retrievalReason := original.retrievalReason;
    }

    method MergeFrom(other: RetrievalEvidence)
      requires other != this
      modifies this
      ensures View() == Merged(old(View()), other.View())
    {
      var domains := AppendAllUnique(matchedDomains, other.matchedDomains);
      var keywords := AppendAllUnique(matchedKeywords, other.matchedKeywords);
      var entities := AppendAllUnique(matchedEntities, other.matchedEntities);
      var reason := JoinReasons(retrievalReason, other.retrievalReason);
      var matchType := MergedMatchType(destinationMatchType, other.destinationMatchType);
      matchedDomains, matchedKeywords, matchedEntities := domains, keywords, entities;

      semanticScore, lexicalScore, temporalScore :=
        MaxOptional(semanticScore, other.semanticScore),
        MaxOptional(lexicalScore, other.lexicalScore),
        MaxOptional(temporalScore, other.temporalScore);
      destinationMatchType := matchType;
      retrievalReason := reason;
    }

    method RecordHit(lane: string, rank: nat, contribution: real)
      modifies this
      ensures View() == Ranked(old(View()), lane, rank, contribution)
    {
      if lane !in lanes {
        lanes := lanes + [lane];
      }
      laneRanks := laneRanks[lane := rank];
      laneScores := laneScores[lane := contribution];
      fusedScore := fusedScore + contribution;
    }
  }
}
