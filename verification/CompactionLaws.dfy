/** What is left of a tool result, entry by entry, and which call a result is compacted as. */
module CompactionLaws {
  import opened Basics
  import opened PyValues
  import opened Compaction
  import opened PromptMessages

  // ----- entries

  /** The entry of that name, as it was; the default where there was none. */
  ghost predicate Copies(after: Record, before: Record, key: Field, missing: Value) {
    key in after && after[key] == if key in before then before[key] else missing
  }

  /** The text of that name, cut at the limit when it is longer; anything but a text as it was. */
  ghost predicate Cuts(after: Record, before: Record, key: Field, limit: nat) {
    && key in after
    && var text := if key in before then before[key] else Str("");
       if text.Str? && |text.s| > limit
       then after[key].Str? && |after[key].s| <= limit + 1 && IsCut(text.s, after[key].s, limit)
       else after[key] == text
  }

  ghost predicate IsCut(s: string, t: string, limit: nat)
    requires limit < |s|
  {
    exists n :: CutAt(s, t, n, limit)
  }

  lemma TextIsCut(v: Value, limit: nat)
    ensures v.Str? && |v.s| > limit ==>
              TruncateText(v, limit).Str? && |TruncateText(v, limit).s| <= limit + 1
              && IsCut(v.s, TruncateText(v, limit).s, limit)
    ensures !(v.Str? && |v.s| > limit) ==> TruncateText(v, limit) == v
  {
    if v.Str? { TruncatedFits(v.s, limit); }
  }

  /** A web result keeps title, url and score, and its content up to the limit; whatever else it had is gone. */
  lemma WebResultKeeps(item: Value, mode: Mode)
    ensures !item.Dict? ==> WebResult(item, mode) == item
    ensures item.Dict? ==>
      var r := WebResult(item, mode);
      && r.Dict? && r.m.Keys == {Field.Title, Field.Url, Field.ContentText, Field.Score}
      && Copies(r.m, item.m, Field.Title, Str("")) && Copies(r.m, item.m, Field.Url, Str(""))
      && Copies(r.m, item.m, Field.Score, Null)
      && Cuts(r.m, item.m, Field.ContentText, if mode == Moderate then 300 else 200)
  {
    if item.Dict? { TextIsCut(Get(item.m, Field.ContentText, Str("")), SnippetLimit(mode)); }
  }

  /** A found note keeps its identity, title, likes and type, and its url without query and fragment. */
  lemma SearchItemKeeps(item: Value, strip: string -> string)
    ensures !item.Dict? ==> SearchItem(item, strip) == item
    ensures item.Dict? ==>
      var r := SearchItem(item, strip);
      && r.Dict? && r.m.Keys == {Field.NoteId, Field.Title, Field.LikedCount, Field.NoteType, Field.Url}
      && Copies(r.m, item.m, Field.NoteId, Str("")) && Copies(r.m, item.m, Field.Title, Str(""))
      && Copies(r.m, item.m, Field.LikedCount, Str("")) && Copies(r.m, item.m, Field.NoteType, Str(""))
      && (Field.Url in item.m && item.m[Field.Url].Str? && item.m[Field.Url].s != "" ==>
            r.m[Field.Url] == Str(strip(item.m[Field.Url].s)))
      && (!(Field.Url in item.m && item.m[Field.Url].Str? && item.m[Field.Url].s != "") ==>
            Copies(r.m, item.m, Field.Url, Str("")))
  {
  }

  /** A note keeps everything the agent reads. */
  lemma NoteKeeps(note: Value, mode: Mode)
    ensures !note.Dict? ==> Note(note, mode) == note
    ensures note.Dict? ==>
      var r := Note(note, mode);
      && r.Dict?
      && r.m.Keys == {Field.NoteId, Field.Title, Field.Desc, Field.LikedCount, Field.CollectedCount,
                      Field.CommentCount, Field.Tags, Field.NoteType, Field.Url}
      && Copies(r.m, note.m, Field.NoteId, Str("")) && Copies(r.m, note.m, Field.Title, Str(""))
      && Copies(r.m, note.m, Field.LikedCount, Str("")) && Copies(r.m, note.m, Field.CollectedCount, Str(""))
      && Copies(r.m, note.m, Field.CommentCount, Str("")) && Copies(r.m, note.m, Field.Tags, List([]))
      && Copies(r.m, note.m, Field.NoteType, Str("")) && Copies(r.m, note.m, Field.Url, Str(""))
  {
  }

  lemma NoteIsCut(note: Value, mode: Mode)
    requires note.Dict?
    ensures Note(note, mode).Dict?
    ensures Cuts(Note(note, mode).m, note.m, Field.Desc, if mode == Moderate then 400 else 300)
  {
    TextIsCut(Get(note.m, Field.Desc, Str("")), DescLimit(mode));
  }

  lemma CommentKeeps(comment: Value, mode: Mode)
    ensures !comment.Dict? ==> Comment(comment, mode) == comment
    ensures comment.Dict? ==>
      var r := Comment(comment, mode);
      && r.Dict? && r.m.Keys == {Field.Nickname, Field.ContentText, Field.LikeCount}
      && Copies(r.m, comment.m, Field.Nickname, Str("")) && Copies(r.m, comment.m, Field.LikeCount, Str(""))
      && Cuts(r.m, comment.m, Field.ContentText, if mode == Moderate then 260 else 200)
  {
    if comment.Dict? { TextIsCut(Get(comment.m, Field.ContentText, Str("")), ContentLimit(mode)); }
  }

  // ----- lists

  /** The head of the list, of at most n entries, each rewritten. */
  ghost predicate IsHead(shown: Value, xs: seq<Value>, n: nat, f: Value -> Value) {
    && shown.List? && |shown.xs| == Min(n, |xs|)
    && forall i | 0 <= i < |shown.xs| :: shown.xs[i] == f(xs[i])
  }

  /** The list of that name is its head, with the number of entries left out under the count's name; the rest of the
      data is as it was. */
  ghost predicate Shortens(after: Record, before: Record, key: Field, countKey: Field, n: nat, f: Value -> Value) {
    if key in before && before[key].List? then
      && key in after && IsHead(after[key], before[key].xs, n, f)
      && (|before[key].xs| > n ==> after == before[key := after[key]][countKey := Int(|before[key].xs| - n)])
      && (|before[key].xs| <= n ==> after == before[key := after[key]])
    else after == before
  }

  lemma RewrittenIsHead(xs: seq<Value>, n: nat, f: Value -> Value)
    ensures IsHead(List(Rewritten(xs, n, f)), xs, n, f)
  {
  }

  lemma ListShortens(d: Record, key: Field, countKey: Field, n: nat, f: Value -> Value)
    requires key != countKey
    ensures Shortens(WithList(d, key, countKey, n, f), d, key, countKey, n, f)
  {
    if key in d && d[key].List? {
      var r := WithList(d, key, countKey, n, f);
      RewrittenIsHead(d[key].xs, n, f);
      assert r[key] == List(Rewritten(d[key].xs, n, f));
    }
  }

  /** Web-search data: the answer cut at 600 or 400 characters, the first eight or five results. */
  lemma WebSearchShows(data: Record, mode: Mode)
    ensures var out := WebSearch(data, mode);
      && (Field.Answer in data <==> Field.Answer in out)
      && (Field.Answer in data ==> Cuts(out, data, Field.Answer, if mode == Moderate then 600 else 400))
      && Shortens(out, if Field.Answer in out then data[Field.Answer := out[Field.Answer]] else data, Field.Results,
                  Field.ResultsOmittedCount, if mode == Moderate then 8 else 5, item => WebResult(item, mode))
  {
    var answered, out := WithAnswer(data, mode), WebSearch(data, mode);
    ListShortens(answered, Field.Results, Field.ResultsOmittedCount, ResultLimit(mode), item => WebResult(item, mode));
    assert Field.Answer in out <==> Field.Answer in answered;
    if Field.Answer in data {
      TextIsCut(data[Field.Answer], AnswerLimit(mode));
      assert out[Field.Answer] == answered[Field.Answer];
      assert answered == data[Field.Answer := out[Field.Answer]];
    }
  }

  /** Which kind of xiaohongshu data it is: what the data says, or else what its tool's name says. */
  lemma OperationIs(data: Record, toolName: string)
    ensures Field.OperationName in data && Truthy(data[Field.OperationName]) ==>
              Operation(data, toolName) == data[Field.OperationName]
    ensures Field.OperationName !in data ==>
      && (Operation(data, toolName) == Str("search_notes") <==> toolName == "xiaohongshu_search_notes")
      && (Operation(data, toolName) == Str("read_note") <==> toolName == "xiaohongshu_read_note")
      && (Operation(data, toolName) == Str("get_comments") <==> toolName == "xiaohongshu_get_comments")
  {
    assert "search_notes"[0] == 's' && "read_note"[0] == 'r' && "get_comments"[0] == 'g';
    assert |"xiaohongshu_search_notes"| == 24 && |"xiaohongshu_read_note"| == 21 && |"xiaohongshu_get_comments"| == 24;
    assert "xiaohongshu_search_notes"[12] == 's' && "xiaohongshu_get_comments"[12] == 'g';
  }

  /** Found notes: the first twelve or eight; comments: the first twelve or eight. */
  lemma XiaohongshuLists(data: Record, mode: Mode, toolName: string, strip: string -> string)
    ensures var out, operation := Xiaohongshu(data, mode, toolName, strip), Operation(data, toolName);
      && (operation == Str("search_notes") ==>
            Shortens(out, data, Field.Items, Field.ItemsOmittedCount, if mode == Moderate then 12 else 8,
                     item => SearchItem(item, strip)))
      && (operation == Str("get_comments") ==>
            Shortens(out, data, Field.Comments, Field.CommentsOmittedCount, if mode == Moderate then 12 else 8,
                     comment => Comment(comment, mode)))
  {
    OperationsDiffer();
    ListShortens(data, Field.Items, Field.ItemsOmittedCount, ItemLimit(mode), item => SearchItem(item, strip));
    ListShortens(data, Field.Comments, Field.CommentsOmittedCount, CommentLimit(mode),
                 comment => Comment(comment, mode));
  }

  lemma OperationsDiffer()
    ensures Str("search_notes") != Str("read_note") && Str("read_note") != Str("get_comments")
    ensures Str("search_notes") != Str("get_comments")
  {
    assert "search_notes"[0] == 's' && "read_note"[0] == 'r' && "get_comments"[0] == 'g';
  }

  /** A note read: only the note changes; and nothing does for any other operation. */
  lemma XiaohongshuNote(data: Record, mode: Mode, toolName: string, strip: string -> string)
    ensures var out, operation := Xiaohongshu(data, mode, toolName, strip), Operation(data, toolName);
      && (operation == Str("read_note") ==>
            out == if Field.NoteBody in data then data[Field.NoteBody := Note(data[Field.NoteBody], mode)] else data)
      && (operation != Str("search_notes") && operation != Str("get_comments") && operation != Str("read_note") ==>
            out == data)
  {
    OperationsDiffer();
  }

  predicate IsXiaohongshu(name: string) {
    || name == "xiaohongshu_search" || name == "xiaohongshu_search_notes"
    || name == "xiaohongshu_read_note" || name == "xiaohongshu_get_comments"
  }

  /** Only the data of a successful result changes, and only for the tools known by name. */
  lemma ResultsCompacted(result: ToolResult, toolName: Option<string>, mode: Mode, strip: string -> string)
    ensures var out := CompactToolResult(result, toolName, mode, strip);
      && out.(data := result.data) == result
      && (result.status != "success" || !result.data.Dict? || toolName.None? ==> out == result)
      && (result.status == "success" && result.data.Dict? && toolName == Some("web_search") ==>
            out.data == Dict(WebSearch(result.data.m, mode)))
      && (result.status == "success" && result.data.Dict? && toolName.Some? && IsXiaohongshu(toolName.value) ==>
            out.data == Dict(Xiaohongshu(result.data.m, mode, toolName.value, strip)))
      && (toolName.Some? && toolName.value != "web_search" && !IsXiaohongshu(toolName.value) ==> out == result)
  {
    NamesDiffer();
    assert "web_search"[0] == 'w';
  }

  // ----- which call

  /** Call c of message m is the last one with its id before message i. */
  ghost predicate LastCall(messages: seq<Message>, i: nat, m: nat, c: nat, id: string)
    requires i <= |messages|
  {
    && m < i && messages[m].role == Assistant && c < |messages[m].toolCalls| && messages[m].toolCalls[c].id == id
    && (forall d | c < d < |messages[m].toolCalls| :: messages[m].toolCalls[d].id != id)
    && (forall k, d | m < k < i && messages[k].role == Assistant && 0 <= d < |messages[k].toolCalls| ::
          messages[k].toolCalls[d].id != id)
  }

  lemma {:induction false} OthersEntered(pending: map<string, string>, calls: seq<ToolCall>, id: string)
    requires forall d | 0 <= d < |calls| :: calls[d].id != id
    ensures id in WithCalls(pending, calls) <==> id in pending
    ensures id in pending ==> WithCalls(pending, calls)[id] == pending[id]
  {
    if calls == [] {
    } else {
      OthersEntered(pending, calls[..|calls| - 1], id);
    }
  }

  lemma {:induction false} LastEntered(pending: map<string, string>, calls: seq<ToolCall>, c: nat)
    requires c < |calls| && forall d | c < d < |calls| :: calls[d].id != calls[c].id
    ensures calls[c].id in WithCalls(pending, calls) && WithCalls(pending, calls)[calls[c].id] == calls[c].name
  {
    var n := |calls| - 1;
    if c < n {
      LastEntered(pending, calls[..n], c);
      assert calls[n].id != calls[c].id;
    }
  }

  lemma {:induction false} PendingIsLastCall(messages: seq<Message>, i: nat, m: nat, c: nat, id: string)
    requires i <= |messages| && LastCall(messages, i, m, c, id)
    ensures id in Pending(messages, i) && Pending(messages, i)[id] == messages[m].toolCalls[c].name
  {
    var before, calls := Pending(messages, i - 1), messages[i - 1].toolCalls;
    if m == i - 1 {
      LastEntered(before, calls, c);
    } else {
      PendingIsLastCall(messages, i - 1, m, c, id);
      if messages[i - 1].role == Assistant { OthersEntered(before, calls, id); }
    }
  }

  /** A tool message is compacted as what its last matching call before it was a call of. */
  lemma NameIsLastCall(messages: seq<Message>, i: nat, m: nat, c: nat)
    requires i < |messages| && IsToolMessage(messages[i])
    requires LastCall(messages, i, m, c, messages[i].toolResult.value.toolCallId)
    ensures ToolNameAt(messages, i) == Some(messages[m].toolCalls[c].name)
  {
    PendingIsLastCall(messages, i, m, c, messages[i].toolResult.value.toolCallId);
  }

  lemma {:induction false} PendingWasCalled(messages: seq<Message>, i: nat, id: string)
    requires i <= |messages|
    requires forall m, c | 0 <= m < i && messages[m].role == Assistant && 0 <= c < |messages[m].toolCalls| ::
               messages[m].toolCalls[c].id != id
    ensures id !in Pending(messages, i)
  {
    if i == 0 {
    } else {
      PendingWasCalled(messages, i - 1, id);
      if messages[i - 1].role == Assistant { OthersEntered(Pending(messages, i - 1), messages[i - 1].toolCalls, id); }
    }
  }

  /** Of a conversation exactly the tool messages with a result are compacted, each as its tool's; all others stay. */
  lemma ToolMessagesCompacted(messages: seq<Message>, mode: Mode, strip: string -> string, i: nat)
    requires i < |messages|
    ensures var m, after := messages[i], CompactMessages(messages, mode, strip)[i];
      after == if m.role == Tool && m.toolResult.Some?
               then m.(toolResult := Some(CompactToolResult(m.toolResult.value, ToolNameAt(messages, i), mode, strip)))
               else m
  {
  }

  // ----- thresholds

  lemma AtLeastTrunc(x: real, t: int)
    requires x >= 0.0
    ensures t >= Trunc(x) <==> t as real > x - 1.0
  {
    assert x.Floor as real <= x < x.Floor as real + 1.0;
    if t >= Trunc(x) { assert t as real >= x.Floor as real; }
    if t as real > x - 1.0 { assert t as real + 1.0 > x.Floor as real; }
  }

  /** An estimate reaches the first threshold when it reaches the minimum and, rounded up, the share of the budget. */
  lemma OversizedMeans(settings: Settings, t: int)
    requires settings.promptBudget as real * settings.oversizedToolRatio >= 0.0
    ensures t >= OversizedThreshold(settings) <==>
      (t >= settings.oversizedToolMinTokens
       && t as real > settings.promptBudget as real * settings.oversizedToolRatio - 1.0)
  {
    AtLeastTrunc(settings.promptBudget as real * settings.oversizedToolRatio, t);
  }

  /** It reaches the second when it reaches twice the minimum, 1.6 times that share, and three tenths of the budget. */
  lemma AggressiveMeans(settings: Settings, t: int)
    requires settings.promptBudget >= 0 && settings.oversizedToolRatio >= 0.0
    ensures t >= AggressiveThreshold(settings) <==>
      (&& t >= 2 * settings.oversizedToolMinTokens
       && t as real > settings.promptBudget as real * (settings.oversizedToolRatio * 1.6) - 1.0
       && t as real > settings.promptBudget as real * 0.3 - 1.0)
  {
    var share := settings.promptBudget as real * (settings.oversizedToolRatio * 1.6);
    var part := settings.promptBudget as real * 0.3;
    AggressiveIs(settings, share, part);
    ReachesLarger(settings.oversizedToolMinTokens, share, part, t);
  }

  lemma AggressiveIs(settings: Settings, share: real, part: real)
    requires settings.promptBudget >= 0 && settings.oversizedToolRatio >= 0.0
    requires share == settings.promptBudget as real * (settings.oversizedToolRatio * 1.6)
    requires part == settings.promptBudget as real * 0.3
    ensures MaxReal(share, part) >= 0.0
    ensures AggressiveThreshold(settings) == Max(Trunc(MaxReal(share, part)), settings.oversizedToolMinTokens * 2)
  {
    LargerScaled(settings.promptBudget as real, settings.oversizedToolRatio * 1.6, 0.3);
  }

  lemma ReachesLarger(minimum: int, x: real, y: real, t: int)
    requires MaxReal(x, y) >= 0.0
    ensures t >= Max(Trunc(MaxReal(x, y)), minimum * 2) <==>
      (t >= 2 * minimum && t as real > x - 1.0 && t as real > y - 1.0)
  {
    AtLeastTrunc(MaxReal(x, y), t);
  }

  lemma LargerScaled(budget: real, a: real, b: real)
    requires budget >= 0.0 && a >= 0.0 && b >= 0.0
    ensures budget * MaxReal(a, b) >= 0.0
    ensures budget * MaxReal(a, b) == MaxReal(budget * a, budget * b)
  {
    if a >= b { Scaled(budget, b, a); } else { Scaled(budget, a, b); }
    Scaled(budget, 0.0, MaxReal(a, b));
  }

  lemma Scaled(budget: real, a: real, b: real)
    requires budget >= 0.0 && a <= b
    ensures budget * a <= budget * b
  {
    assert budget * (b - a) >= 0.0;
  }

  /** The ratio times the budget is the estimate; without a budget nothing is used. */
  lemma UsageMeans(settings: Settings, estimated: int)
    ensures settings.promptBudget != 0 ==>
              UsageRatio(settings, estimated) * settings.promptBudget as real == estimated as real
    ensures settings.promptBudget == 0 ==> UsageRatio(settings, estimated) == 0.0
  {
    if settings.promptBudget != 0 {
      var budget := settings.promptBudget as real;
      assert estimated as real / budget * budget == estimated as real;
    }
  }
}
