/** Compacting the tool messages of a conversation, leaving the call and result protocol intact. */
module PromptMessages {
  import opened Basics
  import opened Compaction
  import opened PyValues

  datatype Role = System | User | Assistant | Tool

  datatype ToolCall = ToolCall(id: string, name: string, arguments: Value)

  datatype Message = Message(role: Role, content: Value, toolCalls: seq<ToolCall>, toolResult: Option<ToolResult>,
                             rest: Value)

  /** Budgets, ratios and the two token estimators, which are functions of the messages. */
  datatype Settings = Settings(
    promptBudget: int,
    softRatio: real,
    aggressiveRatio: real,
    oversizedToolRatio: real,
    oversizedToolMinTokens: int,
    estimatePrompt: seq<Message> -> int,
    estimateMessage: Message -> int
  )

  datatype Outcome = Outcome(messages: seq<Message>, estimatedBefore: int, estimatedAfter: int, changed: bool,
                             mode: Option<Mode>, compactedToolMessages: nat, largestToolTokens: int)

  // ----- which tool a result belongs to

  predicate IsToolMessage(m: Message) { m.role == Tool && m.toolResult.Some? }

  /** `pending_tool_calls` after one message: an assistant's calls are entered, a later one of the
      same id replacing an earlier one. */
  function WithCalls(pending: map<string, string>, calls: seq<ToolCall>): map<string, string> {
    if calls == [] then pending
    else WithCalls(pending, calls[..|calls| - 1])[calls[|calls| - 1].id := calls[|calls| - 1].name]
  }

  /** The names of the calls made by the first n messages, by id. */
  function Pending(messages: seq<Message>, n: nat): map<string, string>
    requires n <= |messages|
  {
    if n == 0 then map[]
    else if messages[n - 1].role == Assistant then WithCalls(Pending(messages, n - 1), messages[n - 1].toolCalls)
    else Pending(messages, n - 1)
  }

  function ToolNameAt(messages: seq<Message>, i: nat): Option<string>
    requires i < |messages|
  {
    var m := messages[i];
    if !IsToolMessage(m) then None
    else
      var pending := Pending(messages, i);
      if m.toolResult.value.toolCallId in pending then Some(pending[m.toolResult.value.toolCallId]) else None
  }

  // ----- the decision

  /** `int(x)`: towards zero. */
  function Trunc(x: real): int { if x >= 0.0 then x.Floor else -((-x).Floor) }

  function MaxReal(a: real, b: real): real { if a >= b then a else b }

  function UsageRatio(settings: Settings, estimated: int): real {
    if settings.promptBudget == 0 then 0.0 else estimated as real / settings.promptBudget as real
  }

  function ToolIndices(messages: seq<Message>, n: nat): (r: seq<nat>)
    requires n <= |messages|
    ensures forall k | 0 <= k < |r| :: r[k] < n && IsToolMessage(messages[r[k]])
  {
    if n == 0 then [] else ToolIndices(messages, n - 1) + if IsToolMessage(messages[n - 1]) then [n - 1] else []
  }

  function LargestTool(messages: seq<Message>, n: nat, settings: Settings): int
    requires n <= |messages|
  {
    if n == 0 then 0
    else if IsToolMessage(messages[n - 1]) then
      Max(LargestTool(messages, n - 1, settings), settings.estimateMessage(messages[n - 1]))
    else LargestTool(messages, n - 1, settings)
  }

  /** Some tool message is estimated at that many tokens, or none is needed. */
  ghost predicate SomeToolReaches(messages: seq<Message>, threshold: int, settings: Settings) {
    threshold <= 0 || exists m | m in messages :: IsToolMessage(m) && settings.estimateMessage(m) >= threshold
  }

  lemma {:induction false} LargestToolReaches(messages: seq<Message>, n: nat, threshold: int, settings: Settings)
    requires n <= |messages|
    ensures LargestTool(messages, n, settings) >= threshold <==> SomeToolReaches(messages[..n], threshold, settings)
  {
    if n == 0 {
    } else {
      LargestToolReaches(messages, n - 1, threshold, settings);
      assert messages[..n] == messages[..n - 1] + [messages[n - 1]];
    }
  }

  function OversizedThreshold(settings: Settings): int {
    Max(Trunc(settings.promptBudget as real * settings.oversizedToolRatio), settings.oversizedToolMinTokens)
  }

  function AggressiveThreshold(settings: Settings): int {
    Max(Trunc(settings.promptBudget as real * MaxReal(settings.oversizedToolRatio * 1.6, 0.3)),
        settings.oversizedToolMinTokens * 2)
  }

  predicate OversizedTool(toolCount: nat, largest: int, settings: Settings) {
    && toolCount > 0
    && settings.promptBudget > 0
    && largest >= OversizedThreshold(settings)
  }

  predicate CallsForAggressive(usage: real, largest: int, settings: Settings) {
    || usage >= settings.aggressiveRatio
    || largest >= AggressiveThreshold(settings)
  }

  /** No mode: the prompt is left alone. */
  function ChosenMode(messages: seq<Message>, settings: Settings): Option<Mode> {
    var usage := UsageRatio(settings, settings.estimatePrompt(messages));
    var largest := LargestTool(messages, |messages|, settings);
    if usage < settings.softRatio && !OversizedTool(|ToolIndices(messages, |messages|)|, largest, settings) then None
    else if CallsForAggressive(usage, largest, settings) then Some(Aggressive)
    else Some(Moderate)
  }

  // ----- the rewritten messages

  function CompactMessage(m: Message, toolName: Option<string>, mode: Mode, strip: string -> string): Message {
    if !IsToolMessage(m) then m
    else m.(toolResult := Some(CompactToolResult(m.toolResult.value, toolName, mode, strip)))
  }

  function CompactMessages(messages: seq<Message>, mode: Mode, strip: string -> string): (r: seq<Message>)
    ensures |r| == |messages|
    ensures forall i | 0 <= i < |r| :: r[i] == CompactMessage(messages[i], ToolNameAt(messages, i), mode, strip)
  {
    seq(|messages|, i requires 0 <= i < |messages| => CompactMessage(messages[i], ToolNameAt(messages, i), mode, strip))
  }

  /** How many of the first k listed messages differ. */
  function Differing(a: seq<Message>, b: seq<Message>, indices: seq<nat>, k: nat): nat
    requires |a| == |b| && k <= |indices| && forall j | 0 <= j < |indices| :: indices[j] < |a|
  {
    if k == 0 then 0
    else Differing(a, b, indices, k - 1) + if a[indices[k - 1]] == b[indices[k - 1]] then 0 else 1
  }

  function CompactedCount(messages: seq<Message>, after: seq<Message>): nat
    requires |after| == |messages|
  {
    var tools := ToolIndices(messages, |messages|);
    Differing(messages, after, tools, |tools|)
  }

  // ----- the code

  /** The first loop: tool messages with their tools' names, and the largest of them. */
  method ScanTools(messages: seq<Message>, settings: Settings)
    returns (specs: seq<(nat, Option<string>)>, largest: int)
    ensures |specs| == |ToolIndices(messages, |messages|)|
    ensures forall k | 0 <= k < |specs| :: specs[k].0 == ToolIndices(messages, |messages|)[k]
                                           && specs[k].1 == ToolNameAt(messages, specs[k].0)
    ensures largest == LargestTool(messages, |messages|, settings)
  {
    var pending: map<string, string> := map[];
    specs, largest := [], 0;
    for idx := 0 to |messages|
      invariant pending == Pending(messages, idx)
      invariant |specs| == |ToolIndices(messages, idx)|
      invariant forall k | 0 <= k < |specs| :: specs[k].0 == ToolIndices(messages, idx)[k]
                                               && specs[k].0 < |messages|
                                               && specs[k].1 == ToolNameAt(messages, specs[k].0)
      invariant largest == LargestTool(messages, idx, settings)
    {
      var message := messages[idx];
      if message.role == Assistant {
        pending := EnterCalls(pending, message.toolCalls);
      }
      if message.role == Tool && message.toolResult.Some? {
        var id := message.toolResult.value.toolCallId;
        var toolName := if id in pending then Some(pending[id]) else None;
        largest := Max(largest, settings.estimateMessage(message));
        specs := specs + [(idx, toolName)];
      }
    }
  }

  method EnterCalls(pending: map<string, string>, calls: seq<ToolCall>) returns (r: map<string, string>)
    ensures r == WithCalls(pending, calls)
  {
    r := pending;
    for k := 0 to |calls|
      invariant r == WithCalls(pending, calls[..k])
    {
      assert calls[..k + 1][..k] == calls[..k];
      r := r[calls[k].id := calls[k].name];
    }
    assert calls[..|calls|] == calls;
  }

  ghost predicate Increasing(indices: seq<nat>) {
    forall i, j | 0 <= i < j < |indices| :: indices[i] < indices[j]
  }

  lemma IncreasingSnoc(indices: seq<nat>, n: nat)
    requires Increasing(indices) && forall k | 0 <= k < |indices| :: indices[k] < n
    ensures Increasing(indices + [n])
  {
  }

  lemma {:induction false} ToolIndicesIncrease(messages: seq<Message>, n: nat)
    requires n <= |messages|
    ensures Increasing(ToolIndices(messages, n))
  {
    if n == 0 {
    } else {
      ToolIndicesIncrease(messages, n - 1);
      IncreasingSnoc(ToolIndices(messages, n - 1), n - 1);
    }
  }

  lemma {:induction false} IsToolIndex(messages: seq<Message>, n: nat, i: nat)
    requires n <= |messages|
    ensures i in ToolIndices(messages, n) <==> i < n && IsToolMessage(messages[i])
  {
    if n == 0 {
    } else {
      IsToolIndex(messages, n - 1, i);
    }
  }

  lemma ToolIndicesAre(messages: seq<Message>, n: nat)
    requires n <= |messages|
    ensures forall i: nat :: i in ToolIndices(messages, n) <==> i < n && IsToolMessage(messages[i])
    ensures Increasing(ToolIndices(messages, n))
  {
    ToolIndicesIncrease(messages, n);
    forall i: nat ensures i in ToolIndices(messages, n) <==> i < n && IsToolMessage(messages[i]) {
      IsToolIndex(messages, n, i);
    }
  }

  lemma {:induction false} NoneDiffer(a: seq<Message>, b: seq<Message>, indices: seq<nat>, k: nat)
    requires |a| == |b| && k <= |indices| && forall j | 0 <= j < |indices| :: indices[j] < |a|
    ensures Differing(a, b, indices, k) == 0 <==> forall j | 0 <= j < k :: a[indices[j]] == b[indices[j]]
  {
    if k == 0 {
    } else {
      NoneDiffer(a, b, indices, k - 1);
    }
  }

  /** Something was compacted exactly when the messages changed. */
  lemma CountIffChanged(messages: seq<Message>, mode: Mode, strip: string -> string)
    ensures CompactedCount(messages, CompactMessages(messages, mode, strip)) == 0
            <==> CompactMessages(messages, mode, strip) == messages
    ensures CompactedCount(messages, messages) == 0
  {
    var after, tools := CompactMessages(messages, mode, strip), ToolIndices(messages, |messages|);
    NoneDiffer(messages, after, tools, |tools|);
    NoneDiffer(messages, messages, tools, |tools|);
    ToolIndicesAre(messages, |messages|);
    if forall j | 0 <= j < |tools| :: messages[tools[j]] == after[tools[j]] {
      forall i | 0 <= i < |messages| ensures after[i] == messages[i] {
        if IsToolMessage(messages[i]) {
          assert i in tools;
        }
      }
    }
  }

  /** The messages with the first k tool messages compacted. */
  ghost predicate PartlyCompacted(current: seq<Message>, messages: seq<Message>, target: seq<Message>, done: seq<nat>)
    requires |messages| == |target|
  {
    && |current| == |messages|
    && forall i | 0 <= i < |messages| :: current[i] == if i in done then target[i] else messages[i]
  }

  lemma PartlyStep(current: seq<Message>, messages: seq<Message>, target: seq<Message>, tools: seq<nat>, k: nat)
    requires |messages| == |target| && k < |tools| && tools[k] < |messages| && tools[k] !in tools[..k]
    requires PartlyCompacted(current, messages, target, tools[..k])
    ensures current[tools[k]] == messages[tools[k]]
    ensures PartlyCompacted(current[tools[k] := target[tools[k]]], messages, target, tools[..k + 1])
  {
    assert tools[..k + 1] == tools[..k] + [tools[k]];
  }

  lemma AllCompacted(current: seq<Message>, messages: seq<Message>, target: seq<Message>, tools: seq<nat>, mode: Mode,
                     strip: string -> string)
    requires target == CompactMessages(messages, mode, strip) && tools == ToolIndices(messages, |messages|)
    requires PartlyCompacted(current, messages, target, tools)
    ensures current == target
  {
    ToolIndicesAre(messages, |messages|);
    forall i | 0 <= i < |messages| ensures current[i] == target[i] {
    }
  }

  method RewriteOne(messages: seq<Message>, idx: nat, toolName: Option<string>, mode: Mode, strip: string -> string)
    returns (r: seq<Message>, differs: bool)
    requires idx < |messages|
    ensures r == messages[idx := CompactMessage(messages[idx], toolName, mode, strip)]
    ensures differs <==> r[idx] != messages[idx]
  {
    var compacted := CompactMessage(messages[idx], toolName, mode, strip);
    differs := compacted != messages[idx];
    r := if differs then messages[idx := compacted] else messages;
  }

  /** Where the second loop stands after k of the tool messages. */
  ghost predicate RewrittenTo(current: seq<Message>, messages: seq<Message>, mode: Mode, strip: string -> string,
                              k: nat, count: nat)
  {
    var target, tools := CompactMessages(messages, mode, strip), ToolIndices(messages, |messages|);
    && k <= |tools|
    && PartlyCompacted(current, messages, target, tools[..k])
    && count == Differing(messages, target, tools, k)
  }

  lemma RewriteStarts(messages: seq<Message>, mode: Mode, strip: string -> string)
    ensures RewrittenTo(messages, messages, mode, strip, 0, 0)
  {
  }

  lemma RewriteStep(current: seq<Message>, messages: seq<Message>, mode: Mode, strip: string -> string, k: nat,
                    count: nat)
    requires RewrittenTo(current, messages, mode, strip, k, count) && k < |ToolIndices(messages, |messages|)|
    ensures var idx := ToolIndices(messages, |messages|)[k];
      && idx < |current|
      && var compacted := CompactMessage(current[idx], ToolNameAt(messages, idx), mode, strip);
         RewrittenTo(current[idx := compacted], messages, mode, strip, k + 1,
                     count + if compacted == current[idx] then 0 else 1)
  {
    ToolIndicesAre(messages, |messages|);
    PartlyStep(current, messages, CompactMessages(messages, mode, strip), ToolIndices(messages, |messages|), k);
  }

  lemma RewriteEnds(current: seq<Message>, messages: seq<Message>, mode: Mode, strip: string -> string, count: nat)
    requires RewrittenTo(current, messages, mode, strip, |ToolIndices(messages, |messages|)|, count)
    ensures current == CompactMessages(messages, mode, strip) && count == CompactedCount(messages, current)
  {
    var tools := ToolIndices(messages, |messages|);
    assert tools[..|tools|] == tools;
    AllCompacted(current, messages, CompactMessages(messages, mode, strip), tools, mode, strip);
  }

  /** The second loop: each tool message replaced by its compacted form, if that differs. */
  method RewriteTools(messages: seq<Message>, specs: seq<(nat, Option<string>)>, mode: Mode, strip: string -> string)
    returns (newMessages: seq<Message>, changed: bool, count: nat)
    requires |specs| == |ToolIndices(messages, |messages|)|
    requires forall k | 0 <= k < |specs| :: specs[k].0 == ToolIndices(messages, |messages|)[k]
                                            && specs[k].1 == ToolNameAt(messages, specs[k].0)
    ensures newMessages == CompactMessages(messages, mode, strip)
    ensures count == CompactedCount(messages, newMessages)
    ensures changed <==> count > 0
  {
    newMessages, changed, count := messages, false, 0;
    RewriteStarts(messages, mode, strip);
    for k := 0 to |specs|
      invariant RewrittenTo(newMessages, messages, mode, strip, k, count)
      invariant changed <==> count > 0
    {
      RewriteStep(newMessages, messages, mode, strip, k, count);
      var differs;
      newMessages, differs := RewriteOne(newMessages, specs[k].0, specs[k].1, mode, strip);
      if differs {
        changed := true;
        count := count + 1;
      }
    }
    RewriteEnds(newMessages, messages, mode, strip, count);
  }

  lemma ToolsCounted(messages: seq<Message>)
    ensures |ToolIndices(messages, |messages|)| > 0 <==> exists m | m in messages :: IsToolMessage(m)
  {
    var tools := ToolIndices(messages, |messages|);
    if m :| m in messages && IsToolMessage(m) {
      var i :| 0 <= i < |messages| && messages[i] == m;
      IsToolIndex(messages, |messages|, i);
    }
    if |tools| > 0 {
      assert IsToolMessage(messages[tools[0]]);
    }
  }

  /** The prompt is left alone exactly below the soft ratio with no tool message over its threshold; it is compacted
      aggressively exactly when it is compacted at all and is over the aggressive ratio or has a tool message over
      the higher threshold. */
  method ChooseMode(messages: seq<Message>, settings: Settings, estimated: int, toolCount: nat, largest: int)
    returns (mode: Option<Mode>)
    requires estimated == settings.estimatePrompt(messages) && toolCount == |ToolIndices(messages, |messages|)|
    requires largest == LargestTool(messages, |messages|, settings)
    ensures var usage := UsageRatio(settings, settings.estimatePrompt(messages));
      var oversized := (exists m | m in messages :: IsToolMessage(m)) && settings.promptBudget > 0
                       && SomeToolReaches(messages, OversizedThreshold(settings), settings);
      && (mode == None <==> usage < settings.softRatio && !oversized)
      && (mode == Some(Aggressive) <==>
            (mode != None
             && (usage >= settings.aggressiveRatio
                 || SomeToolReaches(messages, AggressiveThreshold(settings), settings))))
    ensures mode == ChosenMode(messages, settings)
  {
    LargestToolReaches(messages, |messages|, OversizedThreshold(settings), settings);
    LargestToolReaches(messages, |messages|, AggressiveThreshold(settings), settings);
    assert messages[..|messages|] == messages;
    ToolsCounted(messages);
    var usage := UsageRatio(settings, estimated);
    if usage < settings.softRatio && !OversizedTool(toolCount, largest, settings) {
      return None;
    }
    if CallsForAggressive(usage, largest, settings) {
      return Some(Aggressive);
    }
    mode := Some(Moderate);
  }

  method CompactMessagesForPrompt(messages: seq<Message>, settings: Settings, strip: string -> string)
    returns (r: Outcome)
    ensures var chosen := ChosenMode(messages, settings);
            && r.estimatedBefore == settings.estimatePrompt(messages)
            && r.largestToolTokens == LargestTool(messages, |messages|, settings)
            && r.messages == (if chosen.None? then messages else CompactMessages(messages, chosen.value, strip))
            && r.estimatedAfter == settings.estimatePrompt(r.messages)
            && (r.changed <==> r.messages != messages)
            && r.mode == (if r.changed then chosen else None)
            && r.compactedToolMessages == CompactedCount(messages, r.messages)
            && (r.changed <==> r.compactedToolMessages > 0)
  {
    var estimatedBefore := settings.estimatePrompt(messages);
    var specs, largest := ScanTools(messages, settings);
    var chosen := ChooseMode(messages, settings, estimatedBefore, |specs|, largest);
    if chosen.None? {
      CountIffChanged(messages, Moderate, strip);
      return Outcome(messages, estimatedBefore, estimatedBefore, false, None, 0, largest);
    }
    var newMessages, changed, count := RewriteTools(messages, specs, chosen.value, strip);
    CountIffChanged(messages, chosen.value, strip);
    r := Outcome(if changed then newMessages else messages, estimatedBefore,
                 settings.estimatePrompt(newMessages), changed,
                 if changed then chosen else None, count, largest);
  }

  // ----- the main results

  /** Everything but the data of a tool result. */
  ghost predicate SameShape(a: Message, b: Message) {
    && a.role == b.role && a.content == b.content && a.toolCalls == b.toolCalls && a.rest == b.rest
    && (a.toolResult.Some? <==> b.toolResult.Some?)
    && (a.toolResult.Some? ==> a.toolResult.value.(data := Null) == b.toolResult.value.(data := Null))
    && (!IsToolMessage(a) ==> a == b)
  }

  ghost predicate SameProtocol(a: seq<Message>, b: seq<Message>) {
    |a| == |b| && forall i | 0 <= i < |a| :: SameShape(a[i], b[i])
  }

  lemma {:induction false} SamePending(a: seq<Message>, b: seq<Message>, n: nat)
    requires SameProtocol(a, b) && n <= |a|
    ensures Pending(a, n) == Pending(b, n)
  {
    if n == 0 {
    } else {
      SamePending(a, b, n - 1);
      assert SameShape(a[n - 1], b[n - 1]);
    }
  }

  /** Length, roles, order, calls, ids and all other messages stay, so every tool result still
      answers the same earlier call. */
  lemma CompactionKeepsProtocol(messages: seq<Message>, mode: Mode, strip: string -> string)
    ensures SameProtocol(messages, CompactMessages(messages, mode, strip))
    ensures forall i | 0 <= i < |messages| ::
              ToolNameAt(CompactMessages(messages, mode, strip), i) == ToolNameAt(messages, i)
  {
    var after := CompactMessages(messages, mode, strip);
    forall i | 0 <= i < |messages| ensures ToolNameAt(after, i) == ToolNameAt(messages, i) {
      SamePending(messages, after, i);
      assert SameShape(messages[i], after[i]);
    }
  }

  ghost predicate SameMessageButCounts(a: Message, b: Message) {
    a == b || (a.toolResult.Some? && b.toolResult.Some? && a.(toolResult := None) == b.(toolResult := None)
               && SameButCounts(a.toolResult.value, b.toolResult.value))
  }

  /** Compacting a conversation twice: in one mode the second pass does nothing; an aggressive pass
      after a moderate one gives the aggressive result but for counts of omitted entries. */
  lemma CompactMessagesTwice(messages: seq<Message>, b: Mode, a: Mode, strip: string -> string)
    requires Tighter(a, b) && Idempotent(strip)
    ensures var twice := CompactMessages(CompactMessages(messages, b, strip), a, strip);
            var once := CompactMessages(messages, a, strip);
            && (a == b ==> twice == once)
            && forall i | 0 <= i < |messages| :: SameMessageButCounts(twice[i], once[i])
  {
    var first := CompactMessages(messages, b, strip);
    var twice, once := CompactMessages(first, a, strip), CompactMessages(messages, a, strip);
    CompactionKeepsProtocol(messages, b, strip);
    forall i | 0 <= i < |messages| ensures SameMessageButCounts(twice[i], once[i]) && (a == b ==> twice[i] == once[i]) {
      assert ToolNameAt(first, i) == ToolNameAt(messages, i);
      if IsToolMessage(messages[i]) {
        CompactTwice(messages[i].toolResult.value, ToolNameAt(messages, i), b, a, strip);
      }
    }
  }
}
