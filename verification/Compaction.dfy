/** Compacting tool results so that a prompt fits its budget. */
module Compaction {
  import opened Basics
  import opened PyText
  import opened PyValues

  datatype Mode = Moderate | Aggressive

  // ----- truncation

  const ELLIPSIS := "\U{2026}"

  function Truncated(s: string, limit: nat): string {
    if |s| <= limit then s else RStrip(s[..limit]) + ELLIPSIS
  }

  function TruncateText(value: Value, limit: nat): Value {
    if value.Str? then Str(Truncated(value.s, limit)) else value
  }

  lemma EllipsisIsNotSpace()
    ensures |ELLIPSIS| == 1 && !IsSpace(ELLIPSIS[0])
  {
  }

  /** Cutting a longer cut of s is cutting s. */
  lemma CutOfCut(s: string, b: nat, a: nat)
    requires a <= b < |s|
    ensures Truncated(RStrip(s[..b]) + ELLIPSIS, a) == RStrip(s[..a]) + ELLIPSIS
  {
    EllipsisIsNotSpace();
    var r := RStrip(s[..b]);
    var t := r + ELLIPSIS;
    if |t| <= a {
      assert forall i | 0 <= i < |r| :: r[i] == s[..b][i];
      assert r <= s[..a];
      forall i | |r| <= i < a ensures IsSpace(s[..a][i]) { assert s[..a][i] == s[..b][i]; }
      RStripUnique(s[..a], r);
    } else {
      assert |r| >= a;
      assert t[..a] == r[..a] == s[..b][..a] == s[..a];
    }
  }

  /** Truncating twice is truncating once, to the smaller limit, in whichever order. */
  lemma TruncateTwice(s: string, b: nat, a: nat)
    ensures Truncated(Truncated(s, b), a) == Truncated(s, if a <= b then a else b)
  {
    EllipsisIsNotSpace();
    if |s| > b {
      if a <= b {
        CutOfCut(s, b, a);
      } else {
        assert |RStrip(s[..b]) + ELLIPSIS| <= b + 1 <= a;
      }
    }
  }

  /** A cut text is a prefix of the original with only spaces dropped before the limit, and an ellipsis. */
  lemma TruncatedFits(s: string, limit: nat)
    ensures var t := Truncated(s, limit);
      && |t| <= limit + 1
      && (t == s <==> |s| <= limit || (|s| == limit + 1 && s[limit] == ELLIPSIS[0] && RStrip(s[..limit]) == s[..limit]))
      && (|s| > limit ==> exists n :: CutAt(s, t, n, limit))
  {
    EllipsisIsNotSpace();
    if |s| > limit {
      var r := RStrip(s[..limit]);
      assert forall i | 0 <= i < |r| :: r[i] == s[..limit][i];
      assert r == s[..|r|];
      assert forall i | |r| <= i < limit :: s[i] == s[..limit][i];
      assert CutAt(s, Truncated(s, limit), |r|, limit);
      if Truncated(s, limit) == s {
        assert |r| == |s| - 1 && |r| <= limit;
        assert s[|r|] == (r + ELLIPSIS)[|r|];
      }
      if |s| == limit + 1 && s[limit] == ELLIPSIS[0] && r == s[..limit] {
        assert Truncated(s, limit) == s;
      }
    }
  }

  ghost predicate CutAt(s: string, t: string, n: nat, limit: nat)
    requires limit < |s|
  {
    n <= limit && t == s[..n] + ELLIPSIS && forall i | n <= i < limit :: IsSpace(s[i])
  }

  lemma TruncateTextTwice(v: Value, b: nat, a: nat)
    requires a <= b
    ensures TruncateText(TruncateText(v, b), a) == TruncateText(v, a)
  {
    if v.Str? { TruncateTwice(v.s, b, a); }
  }

  // ----- one list of entries

  function Take(xs: seq<Value>, n: nat): seq<Value> { if |xs| <= n then xs else xs[..n] }

  /** Every entry among the first `limit`, rewritten. */
  function Rewritten(xs: seq<Value>, limit: nat, f: Value -> Value): (r: seq<Value>)
    ensures |r| == |Take(xs, limit)|
    ensures forall i | 0 <= i < |r| :: r[i] == f(xs[i])
  {
    seq(|Take(xs, limit)|, i requires 0 <= i < |Take(xs, limit)| => f(xs[i]))
  }

  /** Replace the list under `key` by its rewritten head and count what was dropped. */
  function WithList(d: Record, key: Field, countKey: Field, limit: nat, f: Value -> Value): Record {
    if key in d && d[key].List? then
      var xs := d[key].xs;
      var shorter := d[key := List(Rewritten(xs, limit, f))];
      if |xs| > limit then shorter[countKey := Int(|xs| - limit)] else shorter
    else d
  }

  /** The shown entries are the head of the list, rewritten; shown and omitted together are all of
      them, and no other entry of the dictionary changes. */
  lemma ListConserved(d: Record, key: Field, countKey: Field, limit: nat, f: Value -> Value)
    requires key != countKey && key in d && d[key].List?
    ensures var r, xs := WithList(d, key, countKey, limit, f), d[key].xs;
      && key in r && r[key].List? && |r[key].xs| <= limit
      && (forall i | 0 <= i < |r[key].xs| :: r[key].xs[i] == f(xs[i]))
      && (if Overflows(d, key, limit) then countKey in r && r[countKey] == Int(|xs| - |r[key].xs|)
          else |r[key].xs| == |xs| && (countKey in r <==> countKey in d))
      && r - {key, countKey} == d - {key, countKey}
  {
    var r := WithList(d, key, countKey, limit, f);
    assert r[key] == List(Rewritten(d[key].xs, limit, f));
    assert r - {key, countKey} == d - {key, countKey};
  }

  /** g after f is g, entry by entry. */
  ghost predicate Absorbs(g: Value -> Value, f: Value -> Value) {
    forall v :: g(f(v)) == g(v)
  }

  lemma RewriteTwice(xs: seq<Value>, b: nat, f: Value -> Value, a: nat, g: Value -> Value)
    requires a <= b && Absorbs(g, f)
    ensures Rewritten(Rewritten(xs, b, f), a, g) == Rewritten(xs, a, g)
  {
    forall i | 0 <= i < |Rewritten(xs, a, g)|
      ensures Rewritten(Rewritten(xs, b, f), a, g)[i] == Rewritten(xs, a, g)[i]
    {
      assert g(f(xs[i])) == g(xs[i]);
    }
  }

  /** The list is there and longer than n. */
  predicate Overflows(d: Record, key: Field, n: nat) {
    key in d && d[key].List? && |d[key].xs| > n
  }

  /** The looser pass dropped nothing: the tighter one finds what it would have found. */
  lemma ListTwiceWhole(d: Record, key: Field, countKey: Field, b: nat, f: Value -> Value, a: nat, g: Value -> Value)
    requires key != countKey && a <= b && Absorbs(g, f)
    requires key in d && d[key].List? && |d[key].xs| <= b
    ensures WithList(WithList(d, key, countKey, b, f), key, countKey, a, g) == WithList(d, key, countKey, a, g)
  {
    var xs := d[key].xs;
    RewriteTwice(xs, b, f, a, g);
    var first := d[key := List(Rewritten(xs, b, f))];
    assert WithList(d, key, countKey, b, f) == first;
    assert first[key := List(Rewritten(xs, a, g))] == d[key := List(Rewritten(xs, a, g))];
  }

  lemma Overwrites(d: Record, key: Field, countKey: Field, x: Value, y: Value, m: Value, n: Value)
    requires key != countKey
    ensures d[key := x][countKey := m][key := y] == d[key := y][countKey := m]
    ensures d[key := y][countKey := m][countKey := n] == d[key := y][countKey := n]
  {
  }

  /** The looser pass dropped something: the tighter one counts from what was left. */
  lemma ListTwiceCut(d: Record, key: Field, countKey: Field, b: nat, f: Value -> Value, a: nat, g: Value -> Value)
    requires key != countKey && a <= b && Absorbs(g, f)
    requires Overflows(d, key, b)
    ensures WithList(WithList(d, key, countKey, b, f), key, countKey, a, g)
         == d[key := List(Rewritten(d[key].xs, a, g))][countKey := Int(if a < b then b - a else |d[key].xs| - b)]
  {
    var xs := d[key].xs;
    RewriteTwice(xs, b, f, a, g);
    var shown, left := List(Rewritten(xs, b, f)), List(Rewritten(xs, a, g));
    var first := d[key := shown][countKey := Int(|xs| - b)];
    assert WithList(d, key, countKey, b, f) == first;
    assert first[key] == shown && |shown.xs| == b;
    Overwrites(d, key, countKey, shown, left, Int(|xs| - b), Int(b - a));
  }

  /** A tighter pass over a looser one differs from the tighter pass alone in the count at most, and
      does so exactly when the looser pass dropped something the tighter one counts differently. */
  lemma ListTwice(d: Record, key: Field, countKey: Field, b: nat, f: Value -> Value, a: nat, g: Value -> Value)
    requires key != countKey && a <= b && Absorbs(g, f)
    ensures var twice := WithList(WithList(d, key, countKey, b, f), key, countKey, a, g);
            var once := WithList(d, key, countKey, a, g);
            && twice - {countKey} == once - {countKey}
            && (twice == once <==> a == b || !Overflows(d, key, b))
  {
    if Overflows(d, key, b) {
      ListTwiceCut(d, key, countKey, b, f, a, g);
      var xs := d[key].xs;
      var once := d[key := List(Rewritten(xs, a, g))][countKey := Int(|xs| - a)];
      assert WithList(d, key, countKey, a, g) == once;
      assert once[countKey] == Int(|xs| - a);
    } else if key in d && d[key].List? {
      ListTwiceWhole(d, key, countKey, b, f, a, g);
    }
  }

  // ----- web search

  function AnswerLimit(mode: Mode): nat { if mode == Moderate then 600 else 400 }
  function SnippetLimit(mode: Mode): nat { if mode == Moderate then 300 else 200 }
  function ResultLimit(mode: Mode): nat { if mode == Moderate then 8 else 5 }

  function WebResult(item: Value, mode: Mode): Value {
    if !item.Dict? then item
    else Dict(map[
      Field.Title := Get(item.m, Field.Title, Str("")),
      Field.Url := Get(item.m, Field.Url, Str("")),
      Field.ContentText := TruncateText(Get(item.m, Field.ContentText, Str("")), SnippetLimit(mode)),
      Field.Score := Get(item.m, Field.Score, Null)])
  }

  function WithAnswer(data: Record, mode: Mode): Record {
    if Field.Answer in data then data[Field.Answer := TruncateText(data[Field.Answer], AnswerLimit(mode))] else data
  }

  function WebSearch(data: Record, mode: Mode): Record {
    WithList(WithAnswer(data, mode), Field.Results, Field.ResultsOmittedCount, ResultLimit(mode),
             item => WebResult(item, mode))
  }

  method CompactWebSearchData(data: Record, mode: Mode) returns (compact: Record)
    ensures compact == WebSearch(data, mode)
  {
    compact := data;
    if Field.Answer in compact {
      compact := compact[Field.Answer := TruncateText(compact[Field.Answer], AnswerLimit(mode))];
    }
    if Field.Results !in compact || !compact[Field.Results].List? {
      return;
    }
    var results := compact[Field.Results].xs;
    var shown := Take(results, ResultLimit(mode));
    var trimmed: seq<Value> := [];
    for i := 0 to |shown|
      invariant |trimmed| == i
      invariant forall j | 0 <= j < i :: trimmed[j] == WebResult(results[j], mode)
    {
      trimmed := trimmed + [WebResult(shown[i], mode)];
    }
    assert trimmed == Rewritten(results, ResultLimit(mode), item => WebResult(item, mode));
    compact := compact[Field.Results := List(trimmed)];
    var omitted := |results| - |trimmed|;
    if omitted > 0 {
      compact := compact[Field.ResultsOmittedCount := Int(omitted)];
    }
  }

  /** The sizes compacted web-search data keeps to. */
  ghost predicate FitsWebLimits(d: Record, mode: Mode) {
    && (Field.Answer in d && d[Field.Answer].Str? ==> |d[Field.Answer].s| <= if mode == Moderate then 601 else 401)
    && (Field.Results in d && d[Field.Results].List? ==>
          && |d[Field.Results].xs| <= (if mode == Moderate then 8 else 5)
          && forall i | 0 <= i < |d[Field.Results].xs| :: FitsSnippet(d[Field.Results].xs[i], mode))
  }

  ghost predicate FitsSnippet(item: Value, mode: Mode) {
    item.Dict? && Field.ContentText in item.m && item.m[Field.ContentText].Str? ==>
      |item.m[Field.ContentText].s| <= if mode == Moderate then 301 else 201
  }

  lemma SnippetFits(item: Value, mode: Mode)
    ensures FitsSnippet(WebResult(item, mode), mode)
  {
    if item.Dict? {
      var content := Get(item.m, Field.ContentText, Str(""));
      if content.Str? { TruncatedFits(content.s, SnippetLimit(mode)); }
    }
  }

  /** Whatever comes in, what goes out keeps to the limits, and only answer, results and their count change. */
  lemma WebSearchFits(data: Record, mode: Mode)
    ensures FitsWebLimits(WebSearch(data, mode), mode)
    ensures WebSearch(data, mode) - {Field.Answer, Field.Results, Field.ResultsOmittedCount}
         == data - {Field.Answer, Field.Results, Field.ResultsOmittedCount}
  {
    var answered, out := WithAnswer(data, mode), WebSearch(data, mode);
    var f := (item: Value) => WebResult(item, mode);
    if Field.Answer in data && data[Field.Answer].Str? { TruncatedFits(data[Field.Answer].s, AnswerLimit(mode)); }
    if Field.Results in answered && answered[Field.Results].List? {
      ListConserved(answered, Field.Results, Field.ResultsOmittedCount, ResultLimit(mode), f);
      var xs, shown := answered[Field.Results].xs, out[Field.Results].xs;
      forall i | 0 <= i < |shown| ensures FitsSnippet(shown[i], mode) {
        assert shown[i] == f(xs[i]);
        SnippetFits(xs[i], mode);
      }
    }
  }

  /** No looser than: the same limits or the tighter ones. */
  predicate Tighter(a: Mode, b: Mode) { a == Aggressive || b == Moderate }

  lemma WebResultTwice(b: Mode, a: Mode)
    requires Tighter(a, b)
    ensures Absorbs((item: Value) => WebResult(item, a), (item: Value) => WebResult(item, b))
  {
    forall v ensures WebResult(WebResult(v, b), a) == WebResult(v, a) {
      if v.Dict? { TruncateTextTwice(Get(v.m, Field.ContentText, Str("")), SnippetLimit(b), SnippetLimit(a)); }
    }
  }

  lemma AnswerTwice(d: Record, b: Mode, a: Mode)
    requires Tighter(a, b)
    ensures WithAnswer(WithAnswer(d, b), a) == WithAnswer(d, a)
  {
    if Field.Answer in d {
      TruncateTextTwice(d[Field.Answer], AnswerLimit(b), AnswerLimit(a));
      assert WithAnswer(WithAnswer(d, b), a) == WithAnswer(d, a);
    }
  }

  lemma AnswerAndListCommute(d: Record, mode: Mode, limit: nat, f: Value -> Value)
    ensures WithAnswer(WithList(d, Field.Results, Field.ResultsOmittedCount, limit, f), mode)
         == WithList(WithAnswer(d, mode), Field.Results, Field.ResultsOmittedCount, limit, f)
  {
    var l := WithAnswer(WithList(d, Field.Results, Field.ResultsOmittedCount, limit, f), mode);
    var r := WithList(WithAnswer(d, mode), Field.Results, Field.ResultsOmittedCount, limit, f);
    assert l == r;
  }

  /** Both answers first, then both lists. */
  lemma WebSearchReordered(d: Record, b: Mode, a: Mode)
    requires Tighter(a, b)
    ensures WebSearch(WebSearch(d, b), a)
         == WithList(WithList(WithAnswer(d, a), Field.Results, Field.ResultsOmittedCount, ResultLimit(b),
                              item => WebResult(item, b)),
                     Field.Results, Field.ResultsOmittedCount, ResultLimit(a), item => WebResult(item, a))
  {
    AnswerAndListCommute(WithAnswer(d, b), a, ResultLimit(b), item => WebResult(item, b));
    AnswerTwice(d, b, a);
  }

  /** Two passes over web-search data against the second alone. */
  lemma WebSearchTwice(d: Record, b: Mode, a: Mode)
    requires Tighter(a, b)
    ensures var twice, once := WebSearch(WebSearch(d, b), a), WebSearch(d, a);
            && twice - {Field.ResultsOmittedCount} == once - {Field.ResultsOmittedCount}
            && (twice == once <==> a == b || !Overflows(d, Field.Results, ResultLimit(b)))
  {
    var f, g := (item: Value) => WebResult(item, b), (item: Value) => WebResult(item, a);
    WebSearchReordered(d, b, a);
    WebResultTwice(b, a);
    ListTwice(WithAnswer(d, a), Field.Results, Field.ResultsOmittedCount, ResultLimit(b), f, ResultLimit(a), g);
  }

  // ----- xiaohongshu

  function ItemLimit(mode: Mode): nat { if mode == Moderate then 12 else 8 }
  function DescLimit(mode: Mode): nat { if mode == Moderate then 400 else 300 }
  function CommentLimit(mode: Mode): nat { if mode == Moderate then 12 else 8 }
  function ContentLimit(mode: Mode): nat { if mode == Moderate then 260 else 200 }

  /** Dropping query and fragment of a url; the url grammar itself is a parameter. */
  function StripUrlQuery(url: Value, strip: string -> string): Value {
    if url.Str? && url.s != "" then Str(strip(url.s)) else url
  }

  ghost predicate Idempotent(strip: string -> string) {
    forall s :: strip(strip(s)) == strip(s)
  }

  function SearchItem(item: Value, strip: string -> string): Value {
    if !item.Dict? then item
    else Dict(map[
      Field.NoteId := Get(item.m, Field.NoteId, Str("")),
      Field.Title := Get(item.m, Field.Title, Str("")),
      Field.LikedCount := Get(item.m, Field.LikedCount, Str("")),
      Field.NoteType := Get(item.m, Field.NoteType, Str("")),
      Field.Url := StripUrlQuery(Get(item.m, Field.Url, Str("")), strip)])
  }

  function Note(note: Value, mode: Mode): Value {
    if !note.Dict? then note
    else Dict(map[
      Field.NoteId := Get(note.m, Field.NoteId, Str("")),
      Field.Title := Get(note.m, Field.Title, Str("")),
      Field.Desc := TruncateText(Get(note.m, Field.Desc, Str("")), DescLimit(mode)),
      Field.LikedCount := Get(note.m, Field.LikedCount, Str("")),
      Field.CollectedCount := Get(note.m, Field.CollectedCount, Str("")),
      Field.CommentCount := Get(note.m, Field.CommentCount, Str("")),
      Field.Tags := Get(note.m, Field.Tags, List([])),
      Field.NoteType := Get(note.m, Field.NoteType, Str("")),
      Field.Url := Get(note.m, Field.Url, Str(""))])
  }

  function Comment(comment: Value, mode: Mode): Value {
    if !comment.Dict? then comment
    else Dict(map[
      Field.Nickname := Get(comment.m, Field.Nickname, Str("")),
      Field.ContentText := TruncateText(Get(comment.m, Field.ContentText, Str("")), ContentLimit(mode)),
      Field.LikeCount := Get(comment.m, Field.LikeCount, Str(""))])
  }

  function Operation(data: Record, toolName: string): Value {
    var given := Get(data, Field.OperationName, Null);
    if Truthy(given) then given
    else if toolName == "xiaohongshu_search_notes" then Str("search_notes")
    else if toolName == "xiaohongshu_read_note" then Str("read_note")
    else if toolName == "xiaohongshu_get_comments" then Str("get_comments")
    else Null
  }

  function WithNote(data: Record, mode: Mode): Record {
    if Field.NoteBody in data then data[Field.NoteBody := Note(data[Field.NoteBody], mode)] else data
  }

  function Xiaohongshu(data: Record, mode: Mode, toolName: string, strip: string -> string): Record {
    var operation := Operation(data, toolName);
    if operation == Str("search_notes") then
      WithList(data, Field.Items, Field.ItemsOmittedCount, ItemLimit(mode), item => SearchItem(item, strip))
    else if operation == Str("read_note") then WithNote(data, mode)
    else if operation == Str("get_comments") then
      WithList(data, Field.Comments, Field.CommentsOmittedCount, CommentLimit(mode), comment => Comment(comment, mode))
    else data
  }

  lemma SearchItemTwice(strip: string -> string)
    requires Idempotent(strip)
    ensures Absorbs((item: Value) => SearchItem(item, strip), (item: Value) => SearchItem(item, strip))
  {
    forall v ensures SearchItem(SearchItem(v, strip), strip) == SearchItem(v, strip) {
      if v.Dict? {
        var url := Get(v.m, Field.Url, Str(""));
        assert StripUrlQuery(StripUrlQuery(url, strip), strip) == StripUrlQuery(url, strip);
      }
    }
  }

  lemma CommentTwice(b: Mode, a: Mode)
    requires Tighter(a, b)
    ensures Absorbs((c: Value) => Comment(c, a), (c: Value) => Comment(c, b))
  {
    forall v ensures Comment(Comment(v, b), a) == Comment(v, a) {
      if v.Dict? { TruncateTextTwice(Get(v.m, Field.ContentText, Str("")), ContentLimit(b), ContentLimit(a)); }
    }
  }

  lemma NoteTwice(d: Record, b: Mode, a: Mode)
    requires Tighter(a, b)
    ensures WithNote(WithNote(d, b), a) == WithNote(d, a)
  {
    if Field.NoteBody in d {
      var note := d[Field.NoteBody];
      if note.Dict? { TruncateTextTwice(Get(note.m, Field.Desc, Str("")), DescLimit(b), DescLimit(a)); }
      assert Note(Note(note, b), a) == Note(note, a);
      assert WithNote(WithNote(d, b), a) == WithNote(d, a);
    }
  }

  /** The data's list whose overflow is counted, with its limit in a mode. */
  predicate XiaohongshuOverflows(d: Record, mode: Mode, toolName: string) {
    var operation := Operation(d, toolName);
    || (operation == Str("search_notes") && Overflows(d, Field.Items, ItemLimit(mode)))
    || (operation == Str("get_comments") && Overflows(d, Field.Comments, CommentLimit(mode)))
  }

  const XHS_COUNTS := {Field.ItemsOmittedCount, Field.CommentsOmittedCount}

  lemma XiaohongshuTwice(d: Record, b: Mode, a: Mode, toolName: string, strip: string -> string)
    requires Tighter(a, b) && Idempotent(strip)
    ensures var twice := Xiaohongshu(Xiaohongshu(d, b, toolName, strip), a, toolName, strip);
            var once := Xiaohongshu(d, a, toolName, strip);
            && twice - XHS_COUNTS == once - XHS_COUNTS
            && (twice == once <==> a == b || !XiaohongshuOverflows(d, b, toolName))
  {
    var first := Xiaohongshu(d, b, toolName, strip);
    var operation := Operation(d, toolName);
    assert Get(first, Field.OperationName, Null) == Get(d, Field.OperationName, Null);
    assert Operation(first, toolName) == operation;
    if operation == Str("search_notes") {
      SearchItemTwice(strip);
      var f := (item: Value) => SearchItem(item, strip);
      ListTwice(d, Field.Items, Field.ItemsOmittedCount, ItemLimit(b), f, ItemLimit(a), f);
      FewerKeys(Xiaohongshu(first, a, toolName, strip), Xiaohongshu(d, a, toolName, strip), {Field.ItemsOmittedCount},
                XHS_COUNTS);
    } else if operation == Str("read_note") {
      NoteTwice(d, b, a);
    } else if operation == Str("get_comments") {
      CommentTwice(b, a);
      ListTwice(d, Field.Comments, Field.CommentsOmittedCount, CommentLimit(b), (c: Value) => Comment(c, b),
                CommentLimit(a), (c: Value) => Comment(c, a));
      FewerKeys(Xiaohongshu(first, a, toolName, strip), Xiaohongshu(d, a, toolName, strip),
                {Field.CommentsOmittedCount}, XHS_COUNTS);
    }
  }

  lemma FewerKeys(x: Record, y: Record, few: set<Field>, many: set<Field>)
    requires few <= many && x - few == y - few
    ensures x - many == y - many
  {
    assert forall k | k !in few :: k in x <==> k in x - few;
    assert forall k | k !in few :: k in y <==> k in y - few;
    forall k | k !in many && k in x ensures k in y && x[k] == y[k] { assert (x - few)[k] == (y - few)[k]; }
    forall k | k !in many && k in y ensures k in x { assert k in y - few; }
    assert (x - many).Keys == (y - many).Keys;
  }

  // ----- a tool result

  datatype ToolResult = ToolResult(toolCallId: string, status: string, data: Value, metadata: Value, error: Value,
                                   errorCode: Value, suggestion: Value)

  predicate IsXiaohongshuTool(name: string) {
    name in {"xiaohongshu_search", "xiaohongshu_search_notes", "xiaohongshu_read_note", "xiaohongshu_get_comments"}
  }

  function CompactData(data: Record, toolName: string, mode: Mode, strip: string -> string): Record {
    if toolName == "web_search" then WebSearch(data, mode)
    else if IsXiaohongshuTool(toolName) then Xiaohongshu(data, mode, toolName, strip)
    else data
  }

  /** Only a successful result with a dict, from a tool known by name, is compacted. */
  predicate Compactable(result: ToolResult, toolName: Option<string>) {
    result.status == "success" && result.data.Dict? && toolName.Some? && toolName.value != ""
  }

  function CompactToolResult(result: ToolResult, toolName: Option<string>, mode: Mode,
                             strip: string -> string): ToolResult {
    if !Compactable(result, toolName) then result
    else result.(data := Dict(CompactData(result.data.m, toolName.value, mode, strip)))
  }

  const OMITTED_COUNTS := {Field.ResultsOmittedCount, Field.ItemsOmittedCount, Field.CommentsOmittedCount}

  /** The looser mode drops entries of the result's list. */
  predicate Drops(result: ToolResult, toolName: Option<string>, mode: Mode) {
    && Compactable(result, toolName)
    && ((toolName.value == "web_search" && Overflows(result.data.m, Field.Results, ResultLimit(mode)))
        || (IsXiaohongshuTool(toolName.value) && XiaohongshuOverflows(result.data.m, mode, toolName.value)))
  }

  /** Equal but for the counts of omitted entries. */
  ghost predicate SameButCounts(x: ToolResult, y: ToolResult) {
    || x == y
    || (x.data.Dict? && y.data.Dict? && x.data.m - OMITTED_COUNTS == y.data.m - OMITTED_COUNTS
        && x.(data := Null) == y.(data := Null))
  }

  lemma CompactDataTwice(data: Record, toolName: string, b: Mode, a: Mode, strip: string -> string)
    requires Tighter(a, b) && Idempotent(strip)
    ensures var twice := CompactData(CompactData(data, toolName, b, strip), toolName, a, strip);
            var once := CompactData(data, toolName, a, strip);
            && twice - OMITTED_COUNTS == once - OMITTED_COUNTS
            && (twice == once <==>
                  || a == b
                  || !(|| (toolName == "web_search" && Overflows(data, Field.Results, ResultLimit(b)))
                       || (toolName != "web_search" && IsXiaohongshuTool(toolName)
                           && XiaohongshuOverflows(data, b, toolName))))
  {
    var twice := CompactData(CompactData(data, toolName, b, strip), toolName, a, strip);
    var once := CompactData(data, toolName, a, strip);
    if toolName == "web_search" {
      WebSearchTwice(data, b, a);
      FewerKeys(twice, once, {Field.ResultsOmittedCount}, OMITTED_COUNTS);
    } else if IsXiaohongshuTool(toolName) {
      XiaohongshuTwice(data, b, a, toolName, strip);
      FewerKeys(twice, once, XHS_COUNTS, OMITTED_COUNTS);
    }
  }

  /** Compacting again in the same mode changes nothing; compacting moderately and then aggressively
      differs from compacting aggressively in the omitted counts at most, and there exactly when the
      moderate pass dropped entries. */
  lemma CompactTwice(result: ToolResult, toolName: Option<string>, b: Mode, a: Mode, strip: string -> string)
    requires Tighter(a, b) && Idempotent(strip)
    ensures var twice := CompactToolResult(CompactToolResult(result, toolName, b, strip), toolName, a, strip);
            var once := CompactToolResult(result, toolName, a, strip);
            && SameButCounts(twice, once)
            && (twice == once <==> a == b || !Drops(result, toolName, b))
  {
    if Compactable(result, toolName) {
      NamesDiffer();
      CompactDataTwice(result.data.m, toolName.value, b, a, strip);
    }
  }

  lemma NamesDiffer()
    ensures !IsXiaohongshuTool("web_search")
  {
    assert "web_search"[0] == 'w' && "xiaohongshu_search"[0] == 'x' && "xiaohongshu_search_notes"[0] == 'x'
        && "xiaohongshu_read_note"[0] == 'x' && "xiaohongshu_get_comments"[0] == 'x';
  }
}
