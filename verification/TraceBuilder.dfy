/** Rebuilding a session's iterations from the recorded LLM calls, tool calls, memory hits and
    recall records: one merge with one index per list. */
module TraceBuilder {
  import opened Basics

  /** `rest` is everything else that is shown as recorded: tokens, durations, costs, side effects, errors. */
  datatype LlmCall = LlmCall(timestamp: real, phase: int, model: string, rest: string)

  datatype ToolCall = ToolCall(timestamp: real, phase: int, toolName: string, status: string,
                               argumentsPreview: string, resultPreview: string, stateChanges: seq<string>, rest: string)

  /** A memory hit or a recall record. */
  datatype MemoryRecord = MemoryRecord(timestamp: real, payload: string)

  datatype Iteration = Iteration(
    index: nat,
    phase: int,
    llmCall: Option<LlmCall>,
    toolCalls: seq<ToolCall>,
    stateChanges: seq<string>,
    compressionEvent: Option<string>,
    memoryHits: Option<MemoryRecord>,
    memoryRecall: Option<MemoryRecord>,
    significance: string
  )

  /** What is looked up per call and per finished iteration. */
  datatype Lookup = Lookup(compressionOf: LlmCall -> Option<string>, significanceOf: Iteration -> string)

  /** The last thing added to an iteration is what to think of it. */
  function Classified(iteration: Iteration, lookup: Lookup): Iteration {
    iteration.(significance := lookup.significanceOf(iteration))
  }

  // ----- where the indices stand

  /** The start of the next LLM call; none after the last (positive infinity). */
  function NextStart(llm: seq<LlmCall>, i: nat): Option<real> {
    if i + 1 < |llm| then Some(llm[i + 1].timestamp) else None
  }

  predicate Before(t: real, limit: Option<real>) { limit.Some? ==> t < limit.value }

  /** The first position from `start` on whose tool call is not before the limit. */
  function Advance(tools: seq<ToolCall>, start: nat, limit: Option<real>): (r: nat)
    requires start <= |tools|
    ensures start <= r <= |tools|
    ensures forall k | start <= k < r :: Before(tools[k].timestamp, limit)
    ensures r < |tools| ==> !Before(tools[r].timestamp, limit)
    decreases |tools| - start
  {
    if start < |tools| && Before(tools[start].timestamp, limit) then Advance(tools, start + 1, limit) else start
  }

  /** `tool_idx` when iteration i starts. */
  function Cut(llm: seq<LlmCall>, tools: seq<ToolCall>, i: nat): (r: nat)
    requires i <= |llm|
    ensures r <= |tools|
  {
    if i == 0 then 0 else Advance(tools, Cut(llm, tools, i - 1), NextStart(llm, i - 1))
  }

  /** A record is taken by iteration i when it lies after the previous LLM call and at most five
      seconds after this one. */
  predicate InWindow(llm: seq<LlmCall>, i: nat, t: real)
    requires i < |llm|
  {
    (i > 0 ==> llm[i - 1].timestamp < t) && t <= llm[i].timestamp + 5.0
  }

  /** `memory_idx`, or `recall_idx`, when iteration i starts. */
  function TakenBefore(llm: seq<LlmCall>, records: seq<MemoryRecord>, i: nat): (r: nat)
    requires i <= |llm|
    ensures r <= |records| && r <= i
  {
    if i == 0 then 0
    else
      var n := TakenBefore(llm, records, i - 1);
      if n < |records| && InWindow(llm, i - 1, records[n].timestamp) then n + 1 else n
  }

  function RecordAt(llm: seq<LlmCall>, records: seq<MemoryRecord>, i: nat): Option<MemoryRecord>
    requires i < |llm|
  {
    var n := TakenBefore(llm, records, i);
    if n < |records| && InWindow(llm, i, records[n].timestamp) then Some(records[n]) else None
  }

  function ChangesOf(tools: seq<ToolCall>): seq<string> {
    if tools == [] then [] else ChangesOf(tools[..|tools| - 1]) + tools[|tools| - 1].stateChanges
  }

  function IterationAt(llm: seq<LlmCall>, tools: seq<ToolCall>, hits: seq<MemoryRecord>, recalls: seq<MemoryRecord>,
                       lookup: Lookup, i: nat): Iteration
    requires i < |llm|
  {
    var mine := tools[Cut(llm, tools, i)..Cut(llm, tools, i + 1)];
    Classified(Iteration(i + 1, llm[i].phase, Some(llm[i]), mine, ChangesOf(mine), lookup.compressionOf(llm[i]),
                         RecordAt(llm, hits, i), RecordAt(llm, recalls, i), ""), lookup)
  }

  /** Orphans show no previews. */
  function Blanked(tool: ToolCall): ToolCall { tool.(argumentsPreview := "", resultPreview := "") }

  function BlankedAll(tools: seq<ToolCall>): (r: seq<ToolCall>)
    ensures |r| == |tools| && forall k | 0 <= k < |r| :: r[k] == Blanked(tools[k])
  {
    seq(|tools|, k requires 0 <= k < |tools| => Blanked(tools[k]))
  }

  function OrphanOf(rest: seq<ToolCall>, count: nat, lookup: Lookup): seq<Iteration> {
    if rest == [] then []
    else [Classified(Iteration(count + 1, rest[0].phase, None, BlankedAll(rest), ChangesOf(rest), None, None, None, ""),
                     lookup)]
  }

  function Orphan(llm: seq<LlmCall>, tools: seq<ToolCall>, lookup: Lookup): seq<Iteration> {
    OrphanOf(tools[Cut(llm, tools, |llm|)..], |llm|, lookup)
  }

  method CollectStateChanges(tools: seq<ToolCall>) returns (changes: seq<string>)
    ensures changes == ChangesOf(tools)
  {
    changes := [];
    for i := 0 to |tools|
      invariant changes == ChangesOf(tools[..i])
    {
      assert tools[..i + 1][..i] == tools[..i];
      changes := changes + tools[i].stateChanges;
    }
    assert tools[..|tools|] == tools;
  }

  method TakeRecord(llm: seq<LlmCall>, records: seq<MemoryRecord>, index: nat, i: nat)
    returns (taken: Option<MemoryRecord>, index': nat)
    requires i < |llm| && index == TakenBefore(llm, records, i)
    ensures taken == RecordAt(llm, records, i) && index' == TakenBefore(llm, records, i + 1)
  {
    taken, index' := None, index;
    if index < |records| {
      var candidate := records[index];
      if (i == 0 || llm[i - 1].timestamp < candidate.timestamp) && candidate.timestamp <= llm[i].timestamp + 5.0 {
        taken, index' := Some(candidate), index + 1;
      }
    }
  }

  /** The inner loop: the calls up to the start of the next LLM call. */
  method TakeTools(tools: seq<ToolCall>, start: nat, limit: Option<real>) returns (taken: seq<ToolCall>, toolIdx: nat)
    requires start <= |tools|
    ensures toolIdx == Advance(tools, start, limit) && taken == tools[start..toolIdx]
  {
    taken, toolIdx := [], start;
    while toolIdx < |tools| && Before(tools[toolIdx].timestamp, limit)
      invariant start <= toolIdx <= |tools|
      invariant Advance(tools, start, limit) == Advance(tools, toolIdx, limit)
      invariant taken == tools[start..toolIdx]
    {
      taken := taken + [tools[toolIdx]];
      toolIdx := toolIdx + 1;
    }
  }

  /** The calls left over, as recorded and as shown. */
  method TakeRemaining(tools: seq<ToolCall>, start: nat) returns (remaining: seq<ToolCall>, shown: seq<ToolCall>)
    requires start <= |tools|
    ensures remaining == tools[start..] && shown == BlankedAll(remaining)
  {
    remaining, shown := [], [];
    var toolIdx := start;
    while toolIdx < |tools|
      invariant start <= toolIdx <= |tools|
      invariant remaining == tools[start..toolIdx]
      invariant shown == BlankedAll(remaining)
    {
      remaining := remaining + [tools[toolIdx]];
      shown := shown + [Blanked(tools[toolIdx])];
      toolIdx := toolIdx + 1;
    }
  }

  /** The first n iterations. */
  ghost predicate Built(iterations: seq<Iteration>, llm: seq<LlmCall>, tools: seq<ToolCall>, hits: seq<MemoryRecord>,
                        recalls: seq<MemoryRecord>, lookup: Lookup, n: nat)
    requires n <= |llm|
  {
    |iterations| == n && forall j | 0 <= j < n :: iterations[j] == IterationAt(llm, tools, hits, recalls, lookup, j)
  }

  /** The bucket for the calls left over, if any. */
  method BuildOrphan(tools: seq<ToolCall>, start: nat, count: nat, lookup: Lookup) returns (orphans: seq<Iteration>)
    requires start <= |tools|
    ensures orphans == OrphanOf(tools[start..], count, lookup)
  {
    var remaining, shown := TakeRemaining(tools, start);
    orphans := [];
    if shown != [] {
      var changes := CollectStateChanges(remaining);
      var orphan := Iteration(count + 1, remaining[0].phase, None, shown, changes, None, None, None, "");
      orphans := [Classified(orphan, lookup)];
    }
  }

  /** One turn of the main loop. */
  method BuildIteration(llm: seq<LlmCall>, tools: seq<ToolCall>, hits: seq<MemoryRecord>, recalls: seq<MemoryRecord>,
                        lookup: Lookup, i: nat, toolIdx: nat, memoryIdx: nat, recallIdx: nat)
    returns (iteration: Iteration, toolIdx': nat, memoryIdx': nat, recallIdx': nat)
    requires i < |llm| && toolIdx == Cut(llm, tools, i)
    requires memoryIdx == TakenBefore(llm, hits, i) && recallIdx == TakenBefore(llm, recalls, i)
    ensures iteration == IterationAt(llm, tools, hits, recalls, lookup, i)
    ensures toolIdx' == Cut(llm, tools, i + 1)
    ensures memoryIdx' == TakenBefore(llm, hits, i + 1) && recallIdx' == TakenBefore(llm, recalls, i + 1)
  {
    var iterTools, memoryHit, memoryRecall;
    iterTools, toolIdx' := TakeTools(tools, toolIdx, NextStart(llm, i));
    var changes := CollectStateChanges(iterTools);
    memoryHit, memoryIdx' := TakeRecord(llm, hits, memoryIdx, i);
    memoryRecall, recallIdx' := TakeRecord(llm, recalls, recallIdx, i);
    iteration := Iteration(i + 1, llm[i].phase, Some(llm[i]), iterTools, changes, lookup.compressionOf(llm[i]),
                           memoryHit, memoryRecall, "");
    iteration := Classified(iteration, lookup);
  }

  lemma BuiltStep(iterations: seq<Iteration>, llm: seq<LlmCall>, tools: seq<ToolCall>, hits: seq<MemoryRecord>,
                  recalls: seq<MemoryRecord>, lookup: Lookup, n: nat)
    requires n < |llm| && Built(iterations, llm, tools, hits, recalls, lookup, n)
    ensures Built(iterations + [IterationAt(llm, tools, hits, recalls, lookup, n)], llm, tools, hits, recalls, lookup,
                  n + 1)
  {
  }

  /** The iterations followed by the orphan bucket. */
  ghost predicate Complete(iterations: seq<Iteration>, llm: seq<LlmCall>, tools: seq<ToolCall>,
                           hits: seq<MemoryRecord>, recalls: seq<MemoryRecord>, lookup: Lookup)
  {
    && |iterations| == |llm| + |Orphan(llm, tools, lookup)|
    && (forall i | 0 <= i < |llm| :: iterations[i] == IterationAt(llm, tools, hits, recalls, lookup, i))
    && iterations[|llm|..] == Orphan(llm, tools, lookup)
  }

  lemma BuiltCompletes(iterations: seq<Iteration>, llm: seq<LlmCall>, tools: seq<ToolCall>, hits: seq<MemoryRecord>,
                       recalls: seq<MemoryRecord>, lookup: Lookup)
    requires Built(iterations, llm, tools, hits, recalls, lookup, |llm|)
    ensures Complete(iterations + Orphan(llm, tools, lookup), llm, tools, hits, recalls, lookup)
  {
  }

  method BuildTrace(llm: seq<LlmCall>, tools: seq<ToolCall>, hits: seq<MemoryRecord>, recalls: seq<MemoryRecord>,
                    lookup: Lookup)
    returns (iterations: seq<Iteration>)
    ensures Complete(iterations, llm, tools, hits, recalls, lookup)
  {
    iterations := [];
    var toolIdx, memoryIdx, recallIdx := 0, 0, 0;
    for i := 0 to |llm|
      invariant toolIdx == Cut(llm, tools, i)
      invariant memoryIdx == TakenBefore(llm, hits, i) && recallIdx == TakenBefore(llm, recalls, i)
      invariant Built(iterations, llm, tools, hits, recalls, lookup, i)
    {
      var iteration;
      iteration, toolIdx, memoryIdx, recallIdx :=
        BuildIteration(llm, tools, hits, recalls, lookup, i, toolIdx, memoryIdx, recallIdx);
      BuiltStep(iterations, llm, tools, hits, recalls, lookup, i);
      iterations := iterations + [iteration];
    }
    var orphans := BuildOrphan(tools, toolIdx, |iterations|, lookup);
    BuiltCompletes(iterations, llm, tools, hits, recalls, lookup);
    iterations := iterations + orphans;
  }

  // ----- the main results

  /** The tool calls of the first n iterations, in order. */
  function Assigned(llm: seq<LlmCall>, tools: seq<ToolCall>, n: nat): seq<ToolCall>
    requires n <= |llm|
  {
    if n == 0 then []
    else
      CutsGrow(llm, tools, n - 1);
      Assigned(llm, tools, n - 1) + tools[Cut(llm, tools, n - 1)..Cut(llm, tools, n)]
  }

  lemma CutsGrow(llm: seq<LlmCall>, tools: seq<ToolCall>, i: nat)
    requires i < |llm|
    ensures Cut(llm, tools, i) <= Cut(llm, tools, i + 1)
  {
  }

  lemma PrefixGrows(tools: seq<ToolCall>, a: nat, b: nat)
    requires a <= b <= |tools|
    ensures tools[..a] + tools[a..b] == tools[..b]
  {
  }

  lemma AssignedStep(llm: seq<LlmCall>, tools: seq<ToolCall>, n: nat)
    requires 0 < n <= |llm|
    ensures Cut(llm, tools, n - 1) <= Cut(llm, tools, n)
    ensures Assigned(llm, tools, n) ==
            Assigned(llm, tools, n - 1) + tools[Cut(llm, tools, n - 1)..Cut(llm, tools, n)]
  {
    CutsGrow(llm, tools, n - 1);
  }

  lemma {:induction false} AssignedIsPrefix(llm: seq<LlmCall>, tools: seq<ToolCall>, n: nat)
    requires n <= |llm|
    ensures Assigned(llm, tools, n) == tools[..Cut(llm, tools, n)]
  {
    if n == 0 {
    } else {
      AssignedIsPrefix(llm, tools, n - 1);
      AssignedStep(llm, tools, n);
      PrefixGrows(tools, Cut(llm, tools, n - 1), Cut(llm, tools, n));
    }
  }

  /** No call is lost, doubled or reordered: the iterations' calls followed by the orphans are the
      recorded list; and there are orphans only when no LLM call was recorded at all. */
  lemma TraceKeepsAllCalls(llm: seq<LlmCall>, tools: seq<ToolCall>, lookup: Lookup)
    ensures Assigned(llm, tools, |llm|) + tools[Cut(llm, tools, |llm|)..] == tools
    ensures Orphan(llm, tools, lookup) != [] <==> llm == [] && tools != []
  {
    AssignedIsPrefix(llm, tools, |llm|);
  }

  ghost predicate SortedTools(tools: seq<ToolCall>) {
    forall i, j | 0 <= i < j < |tools| :: tools[i].timestamp <= tools[j].timestamp
  }

  ghost predicate SortedCalls(llm: seq<LlmCall>) {
    forall i, j | 0 <= i < j < |llm| :: llm[i].timestamp <= llm[j].timestamp
  }

  /** A search for one call by itself: the last LLM call not later than t, or the first one. */
  function Owner(llm: seq<LlmCall>, t: real, n: nat): (r: nat)
    requires 0 < n <= |llm|
    ensures r < n
    ensures r > 0 ==> llm[r].timestamp <= t
    ensures forall j | r < j < n :: llm[j].timestamp > t
  {
    if n == 1 || llm[n - 1].timestamp <= t then n - 1 else Owner(llm, t, n - 1)
  }

  /** With both lists in time order the merge puts each call where a search for it would. */
  lemma MergeFindsOwner(llm: seq<LlmCall>, tools: seq<ToolCall>, i: nat, k: nat)
    requires SortedTools(tools) && SortedCalls(llm)
    requires i < |llm| && Cut(llm, tools, i) <= k < Cut(llm, tools, i + 1)
    ensures Owner(llm, tools[k].timestamp, |llm|) == i
  {
    var t := tools[k].timestamp;
    assert Before(t, NextStart(llm, i));
    if i > 0 {
      var c := Cut(llm, tools, i);
      assert !Before(tools[c].timestamp, NextStart(llm, i - 1));
      assert tools[c].timestamp <= t;
    }
    var r := Owner(llm, t, |llm|);
    assert i + 1 < |llm| ==> t < llm[i + 1].timestamp;
    assert i > 0 ==> llm[i].timestamp <= t;
    assert forall j | i < j < |llm| :: llm[i + 1].timestamp <= llm[j].timestamp;
  }

  /** Without any order on the tool calls each still lands in an iteration that ends after it, and
      the iterations never go backwards along the recorded list. */
  lemma MergeWithoutOrder(llm: seq<LlmCall>, tools: seq<ToolCall>, i: nat, k: nat)
    requires i < |llm| && Cut(llm, tools, i) <= k < Cut(llm, tools, i + 1)
    ensures Before(tools[k].timestamp, NextStart(llm, i))
    ensures i > 0 ==> exists c | 0 <= c <= k :: llm[i].timestamp <= tools[c].timestamp
  {
    if i > 0 {
      var c := Cut(llm, tools, i);
      assert !Before(tools[c].timestamp, NextStart(llm, i - 1));
    }
  }

  /** Iterations are numbered from one and show their LLM call, with its phase and compression event, its tool calls as
      recorded and all their state changes in order; the significance is that of the iteration so built. */
  lemma IterationSays(llm: seq<LlmCall>, tools: seq<ToolCall>, hits: seq<MemoryRecord>, recalls: seq<MemoryRecord>,
                      lookup: Lookup, i: nat)
    requires i < |llm|
    ensures var it := IterationAt(llm, tools, hits, recalls, lookup, i);
      && it.index == i + 1 && it.llmCall == Some(llm[i]) && it.phase == llm[i].phase
      && it.compressionEvent == lookup.compressionOf(llm[i])
      && it.toolCalls == tools[Cut(llm, tools, i)..Cut(llm, tools, i + 1)]
      && it.stateChanges == ChangesOf(it.toolCalls)
      && it.memoryHits == RecordAt(llm, hits, i) && it.memoryRecall == RecordAt(llm, recalls, i)
      && it.significance == lookup.significanceOf(it.(significance := ""))
  {
  }

  /** The orphans' bucket has the next number, the phase of the first of them, their state changes, and the calls
      without previews but otherwise as recorded. */
  lemma OrphanSays(llm: seq<LlmCall>, tools: seq<ToolCall>, lookup: Lookup)
    ensures var orphans, rest := Orphan(llm, tools, lookup), tools[Cut(llm, tools, |llm|)..];
      && (rest == [] ==> orphans == [])
      && (rest != [] ==>
            && |orphans| == 1 && orphans[0].index == |llm| + 1 && orphans[0].phase == rest[0].phase
            && orphans[0].llmCall == None && orphans[0].memoryHits == None && orphans[0].memoryRecall == None
            && orphans[0].compressionEvent == None && orphans[0].stateChanges == ChangesOf(rest)
            && |orphans[0].toolCalls| == |rest|
            && (forall k | 0 <= k < |rest| ::
                  && orphans[0].toolCalls[k].argumentsPreview == "" && orphans[0].toolCalls[k].resultPreview == ""
                  && orphans[0].toolCalls[k].(argumentsPreview := rest[k].argumentsPreview,
                                              resultPreview := rest[k].resultPreview) == rest[k])
            && orphans[0].significance == lookup.significanceOf(orphans[0].(significance := "")))
  {
  }

  /** State changes of calls one after another are those of the first followed by those of the rest. */
  lemma {:induction false} ChangesAddUp(a: seq<ToolCall>, b: seq<ToolCall>, tool: ToolCall)
    ensures ChangesOf(a + b) == ChangesOf(a) + ChangesOf(b) && ChangesOf([tool]) == tool.stateChanges
  {
    assert [tool][..0] == [];
    if b == [] {
      assert a + b == a;
    } else {
      var n := |b| - 1;
      ChangesAddUp(a, b[..n], tool);
      assert (a + b)[..|a + b| - 1] == a + b[..n];
    }
  }

  /** A record is shown with an iteration when it lies after the previous LLM call and at most five seconds after the
      iteration's own; and the next record to be shown is passed over only when it does not. */
  lemma ShownInItsWindow(llm: seq<LlmCall>, records: seq<MemoryRecord>, i: nat)
    requires i < |llm|
    ensures var n, shown := TakenBefore(llm, records, i), RecordAt(llm, records, i);
      && n <= |records|
      && (shown.Some? ==> n < |records| && shown.value == records[n])
      && (shown.Some? <==>
            (n < |records| && records[n].timestamp <= llm[i].timestamp + 5.0
             && (i == 0 || records[n].timestamp > llm[i - 1].timestamp)))
      && TakenBefore(llm, records, i + 1) == n + (if shown.Some? then 1 else 0)
  {
  }

  /** The records shown by the first n iterations. */
  function Shown(llm: seq<LlmCall>, records: seq<MemoryRecord>, n: nat): seq<MemoryRecord>
    requires n <= |llm|
  {
    if n == 0 then []
    else
      var r := RecordAt(llm, records, n - 1);
      Shown(llm, records, n - 1) + if r.Some? then [r.value] else []
  }

  /** Memory hits, and recall records, are shown in recorded order, each at most once, none skipped. */
  lemma {:induction false} RecordsShownInOrder(llm: seq<LlmCall>, records: seq<MemoryRecord>, n: nat)
    requires n <= |llm|
    ensures Shown(llm, records, n) == records[..TakenBefore(llm, records, n)]
  {
    if n == 0 {
    } else {
      RecordsShownInOrder(llm, records, n - 1);
    }
  }
}
