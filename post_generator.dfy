/**
 * PostGenerator.js: `generatePostWithAnalysis`, which asks Gemini for posts
 * built on the account's own analytics, and the `storeAIGenerationLog_`
 * defined in the same file. The prompt text and the request are outside
 * the model: the reply text is an input (`Err` when the request threw) and
 * `parse` stands for `JSON.parse` (None when it throws). What is modelled
 * is the data the prompt is built from, how the reply becomes results and
 * how the results are logged.
 */
module PostGenerator {
  import opened Common
  import opened Store
  import Settings
  import Analytics
  import Drafts
  import Gemini

  const KeyUnsetMessage := "Gemini APIキーが未設定です"
  const RawTextReason := "AI生成結果（JSON解析不可のため原文表示）"
  const AnalysisMode := "analysis-based"
  const TopLimit := 5

  // ------------------------------------------------------------ the posts the prompt lists

  predicate PositiveEr(p: PostRow)
  {
    p.erCenti > 0
  }

  /** `posts.filter(er > 0).sort(by er, descending).slice(0, 5)`. */
  function TopPosts(posts: seq<PostRow>): seq<PostRow>
  {
    Take(SortDesc(Filter(posts, PositiveEr), Analytics.ErKey), TopLimit)
  }

  /** The listed posts are taken from the posts with a positive rate, and every such post is a candidate. */
  lemma KeptPositive(posts: seq<PostRow>)
    ensures forall p :: p in Filter(posts, PositiveEr) <==> p in posts && p.erCenti > 0
  {
    forall p | p in posts && p.erCenti > 0
      ensures p in Filter(posts, PositiveEr)
    {
      FilterMember(posts, PositiveEr, p);
    }
    forall p | p in Filter(posts, PositiveEr)
      ensures p in posts && p.erCenti > 0
    {
      FilterMember(posts, PositiveEr, p);
    }
  }

  /**
   * The listed posts are the best five with a positive rate, best first:
   * every other post with a positive rate does no better than the last one
   * listed.
   */
  lemma TopPositive(posts: seq<PostRow>)
    ensures var top := TopPosts(posts);
      && |top| == Min(TopLimit, Count(posts, PositiveEr))
      && SortedDesc(top, Analytics.ErKey)
      && (forall p :: p in top ==> p in posts && p.erCenti > 0)
      && (forall p :: p in posts && p.erCenti > 0 ==> |top| > 0 && (p in top || p.erCenti <= top[|top| - 1].erCenti))
  {
    var kept := Filter(posts, PositiveEr);
    var top := Gemini.TopPosts(kept);
    assert TopPosts(posts) == top;
    Gemini.TopFive(kept);
    KeptPositive(posts);
    forall p | p in top
      ensures p in kept
    {
      assert p in multiset(top);
    }
  }

  // ------------------------------------------------------------ demographics

  /** A header the demographics keep: `demo_…`, or one naming a country, an age or a gender. */
  predicate IsDemoHeader(h: string)
  {
    StartsWith(h, "demo_") || Contains(h, "country") || Contains(h, "age") || Contains(h, "gender")
  }

  /** `row[i]`: undefined (null here) past the end of the row. */
  function CellAt(row: seq<Json>, i: nat): Json
  {
    if i < |row| then row[i] else JNull
  }

  /** `demographics` after the loop has seen `headers`: a later header of the same name overwrites. */
  function DemoOf(headers: seq<string>, row: seq<Json>): map<string, Json>
  {
    if |headers| == 0 then map[]
    else
      var n := |headers| - 1;
      var m := DemoOf(headers[..n], row);
      if IsDemoHeader(headers[n]) then m[headers[n] := CellAt(row, n)] else m
  }

  /** The keys of the demographics are exactly the demographic headers. */
  lemma {:induction false} DemoKeys(headers: seq<string>, row: seq<Json>)
    ensures forall k :: k in DemoOf(headers, row) <==> k in headers && IsDemoHeader(k)
  {
    if |headers| > 0 {
      var n := |headers| - 1;
      DemoKeys(headers[..n], row);
      assert headers == headers[..n] + [headers[n]];
    }
  }

  /** Each kept header maps to the cell under its last occurrence. */
  lemma {:induction false} DemoValue(headers: seq<string>, row: seq<Json>, k: string, i: nat)
    requires i < |headers| && headers[i] == k && IsDemoHeader(k)
    requires forall j :: i < j < |headers| ==> headers[j] != k
    ensures k in DemoOf(headers, row) && DemoOf(headers, row)[k] == CellAt(row, i)
  {
    var n := |headers| - 1;
    if i < n {
      DemoValue(headers[..n], row, k, i);
    }
  }

  /** The loop over the header row of ユーザーインサイト. */
  method CollectDemographics(headers: seq<string>, row: seq<Json>) returns (demo: map<string, Json>)
    ensures demo == DemoOf(headers, row)
  {
    demo := map[];
    var i := 0;
    while i < |headers|
      invariant 0 <= i <= |headers|
      invariant demo == DemoOf(headers[..i], row)
    {
      assert headers[..i + 1][..i] == headers[..i];
      if IsDemoHeader(headers[i]) {
        demo := demo[headers[i] := CellAt(row, i)];
      }
      i := i + 1;
    }
    assert headers[..i] == headers;
  }

  /** A character of `p` occurs in every string that contains `p`. */
  lemma ContainsChar(h: string, p: string, c: char)
    requires c in p && Contains(h, p)
    ensures c in h
  {
    var r := IndexOfFrom(h, p, 0);
    var j :| 0 <= j < |p| && p[j] == c;
    assert h[r..][..|p|] == p;
    assert h[r + j] == c;
  }

  /** A header without a 'g' or a 'y' that does not begin with "de" is not demographic. */
  lemma NotDemographic(h: string)
    requires 'g' !in h && 'y' !in h && |h| >= 2 && (h[0] != 'd' || h[1] != 'e')
    ensures !IsDemoHeader(h)
  {
    if Contains(h, "age") {
      ContainsChar(h, "age", 'g');
    }
    if Contains(h, "gender") {
      ContainsChar(h, "gender", 'g');
    }
    if Contains(h, "country") {
      ContainsChar(h, "country", 'y');
    }
  }

  /** Headers without a 'g' or a 'y' that do not begin with "de" leave the demographics empty. */
  lemma NoDemoHeaders(headers: seq<string>, row: seq<Json>)
    requires forall i :: 0 <= i < |headers| ==>
      'g' !in headers[i] && 'y' !in headers[i] && |headers[i]| >= 2 && (headers[i][0] != 'd' || headers[i][1] != 'e')
    ensures DemoOf(headers, row) == map[]
  {
    forall i | 0 <= i < |headers|
      ensures !IsDemoHeader(headers[i])
    {
      NotDemographic(headers[i]);
    }
    DemoKeys(headers, row);
  }

  /** No header of the standard ユーザーインサイト layout is demographic. */
  lemma StandardHeadersNotDemographic(row: seq<Json>)
    ensures DemoOf(Settings.InsightHeaders, row) == map[]
  {
    NoDemoHeaders(Settings.InsightHeaders, row);
  }

  /** `!!(demographics && Object.keys(demographics).length > 0)`: read only when the sheet has a data row. */
  function HasDemographics(present: bool, dataRows: nat, headers: seq<string>, last: seq<Json>): bool
  {
    present && dataRows > 0 && DemoOf(headers, last) != map[]
  }

  /** There are demographics exactly when the sheet has a data row and a demographic header. */
  lemma HasDemographicsIff(present: bool, dataRows: nat, headers: seq<string>, last: seq<Json>)
    ensures HasDemographics(present, dataRows, headers, last) <==>
      present && dataRows > 0 && exists i :: 0 <= i < |headers| && IsDemoHeader(headers[i])
  {
    DemoKeys(headers, last);
    if exists i :: 0 <= i < |headers| && IsDemoHeader(headers[i]) {
      var i :| 0 <= i < |headers| && IsDemoHeader(headers[i]);
      assert headers[i] in DemoOf(headers, last);
    }
  }

  // ------------------------------------------------------------ the reply

  predicate IsOpenBracket(c: char)
  {
    c == '['
  }

  predicate IsCloseBracket(c: char)
  {
    c == ']'
  }

  /** `rawText.match(/\[[\s\S]*\]/)`: from the first '[' to the last ']' after it. */
  function JsonSpan(text: string): Option<string>
  {
    var open := FirstWhere(text, IsOpenBracket);
    var close := LastWhere(text, IsCloseBracket);
    if open.Some? && close.Some? && open.value < close.value then Some(text[open.value..close.value + 1])
    else None
  }

  /** Prose around a bracketed array does not reach the parser: the span is the array. */
  lemma SpanRoundTrip(pre: string, body: string, post: string)
    requires '[' !in pre && ']' !in post
    ensures JsonSpan(pre + "[" + body + "]" + post) == Some("[" + body + "]")
  {
    var text := pre + "[" + body + "]" + post;
    var open := |pre|;
    var close := |pre| + 1 + |body|;
    assert text[open] == '[';
    assert forall j :: 0 <= j < open ==> text[j] == pre[j];
    FirstWhereAt(text, IsOpenBracket, open);
    assert text[close] == ']';
    assert forall j :: close < j < |text| ==> text[j] == post[j - close - 1];
    var last := LastWhere(text, IsCloseBracket);
    assert last == Some(close);
    assert text[open..close + 1] == "[" + body + "]";
  }

  /** Without a '[' followed later by a ']' there is no span. */
  lemma NoSpan(text: string)
    requires forall i, j :: 0 <= i < j < |text| ==> !(text[i] == '[' && text[j] == ']')
    ensures JsonSpan(text) == None
  {
  }

  /** `results`: the parsed span, [] without a span, the raw text when the span does not parse. */
  function ResultsOf(rawText: string, parse: string -> Option<Json>): Json
  {
    match JsonSpan(rawText)
    case None => JArr([])
    case Some(span) =>
      match parse(span)
      case Some(v) => v
      case None => JArr([Gemini.Item(rawText, RawTextReason)])
  }

  /** A reply holding an array amid prose gives what the parser makes of the array, or the raw text. */
  lemma ResultsOfArrayReply(pre: string, body: string, post: string, parse: string -> Option<Json>)
    requires '[' !in pre && ']' !in post
    ensures var raw := pre + "[" + body + "]" + post;
      && (parse("[" + body + "]").Some? ==> ResultsOf(raw, parse) == parse("[" + body + "]").value)
      && (parse("[" + body + "]").None? ==> ResultsOf(raw, parse) == JArr([Gemini.Item(raw, RawTextReason)]))
  {
    SpanRoundTrip(pre, body, post);
  }

  /** Only a failed parse yields the raw-text item; a reply without a span yields no results. */
  lemma FallbackOnlyOnParseFailure(rawText: string, parse: string -> Option<Json>)
    ensures JsonSpan(rawText).None? ==> ResultsOf(rawText, parse) == JArr([])
    ensures ResultsOf(rawText, parse) == JArr([Gemini.Item(rawText, RawTextReason)]) ==>
      JsonSpan(rawText).Some? && (parse(JsonSpan(rawText).value).None? ||
                                  parse(JsonSpan(rawText).value) == Some(JArr([Gemini.Item(rawText, RawTextReason)])))
  {
  }

  // ------------------------------------------------------------ storeAIGenerationLog_ (PostGenerator.js)

  const PostLogHeaders := ["generated_at", "account_id", "theme", "mode", "post_text", "reason", "expected_er",
    "best_time", "media_advice", "analysis_summary"]

  /** `analysisUsed`: the average rate is in hundredths of a percent. */
  datatype AnalysisUsed = AnalysisUsed(totalPosts: int, avgErCenti: int, topPostCount: int)

  /** `String(c / 100)` for a whole number of hundredths: no trailing zeros, no point for a whole number. */
  function CentiText(c: int): (r: string)
    ensures c >= 0 && c % 100 == 0 ==> r == NatToString(c / 100)
    decreases if c < 0 then 1 else 0
  {
    if c < 0 then "-" + CentiText(-c)
    else
      var whole, frac := c / 100, c % 100;
      if frac == 0 then NatToString(whole)
      else if frac % 10 == 0 then NatToString(whole) + "." + [DigitChar(frac / 10)]
      else NatToString(whole) + "." + [DigitChar(frac / 10), DigitChar(frac % 10)]
  }

  /** The analysis_summary cell: empty without `analysisUsed`. */
  function AnalysisSummary(used: Option<AnalysisUsed>): string
  {
    match used
    case None => ""
    case Some(a) =>
      "投稿" + IntToString(a.totalPosts) + "件分析 / 平均ER " + CentiText(a.avgErCenti) + "% / TOP"
        + IntToString(a.topPostCount) + "参考"
  }

  /** `String(x)` of a JSON value: a string is itself; `show` renders the others. */
  function JsText(j: Json, show: Json -> string): string
  {
    if j.JStr? then j.s else show(j)
  }

  /** Reading the item throws: a null item, or a thread item whose truthy `replies` has no `map`. */
  predicate ItemThrows(mode: string, item: Json)
  {
    || item.JNull?
    || (mode == "thread" && Truthy(Get(item, "parent")) && Truthy(Get(item, "replies"))
        && !Get(item, "replies").JArr?)
  }

  /** The post_text cell of an item. */
  function ItemText(mode: string, item: Json, stringify: Json -> string, show: Json -> string): Json
  {
    if mode == "thread" && Truthy(Get(item, "parent")) then
      var replies := Get(item, "replies");
      var rs := if replies.JArr? then replies.items else [];
      JStr(Drafts.ThreadText(JsText(Get(item, "parent"), show), seq(|rs|, i requires 0 <= i < |rs| => JsText(rs[i], show))))
    else OrElse(Get(item, "text"), if item.JStr? then item else JStr(stringify(item)))
  }

  /** `item[key] || ''`. */
  function Cell(item: Json, key: string): Json
  {
    OrElse(Get(item, key), JStr(""))
  }

  /** The 10-column row of one result. */
  function PostLogRow(at: int, accountId: string, theme: string, mode: string, summary: string, item: Json,
                      stringify: Json -> string, show: Json -> string): AiLogRow
  {
    AiLogRow(at, accountId, theme, OrDefault(mode, "normal"), ItemText(mode, item, stringify, show),
             Cell(item, "reason"), Cell(item, "expectedER"), Cell(item, "bestTime"), Cell(item, "mediaAdvice"),
             summary)
  }

  /**
   * The rows written: one per result, or none at all when `results` is not
   * an array or one of its items throws (the rows are written in one block
   * after the loop, so the throw discards them all).
   */
  function PostLogRows(at: int, accountId: string, theme: string, mode: string, used: Option<AnalysisUsed>,
                       results: Json, stringify: Json -> string, show: Json -> string): seq<AiLogRow>
  {
    if results.JArr? && forall i :: 0 <= i < |results.items| ==> !ItemThrows(mode, results.items[i]) then
      var items := results.items;
      seq(|items|, i requires 0 <= i < |items| =>
        PostLogRow(at, accountId, theme, mode, AnalysisSummary(used), items[i], stringify, show))
    else []
  }

  /**
   * `storeAIGenerationLog_` of PostGenerator.js: creates the sheet with its
   * header row when missing, builds one row per result and writes them in a
   * single block; a throwing item leaves the sheet without new rows.
   */
  method StorePostLog(log: Sheet<AiLogRow>, at: int, accountId: string, theme: string, mode: string,
                      used: Option<AnalysisUsed>, results: Json, stringify: Json -> string, show: Json -> string)
    modifies log
    ensures Gemini.LogAppended(log, old(log.present), old(log.headers), old(log.rows), PostLogHeaders,
                               PostLogRows(at, accountId, theme, mode, used, results, stringify, show))
  {
    if !log.present {
      log.Insert(PostLogHeaders);
    }
    var rows := BuildPostRows(at, accountId, theme, mode, used, results, stringify, show);
    if |rows| > 0 {
      log.AppendRows(rows);
    }
  }

  /** The `forEach` that builds the block of rows; a throwing item abandons the block. */
  method BuildPostRows(at: int, accountId: string, theme: string, mode: string, used: Option<AnalysisUsed>,
                       results: Json, stringify: Json -> string, show: Json -> string) returns (rows: seq<AiLogRow>)
    ensures rows == PostLogRows(at, accountId, theme, mode, used, results, stringify, show)
  {
    rows := [];
    if !results.JArr? {
      return;
    }
    var summary := AnalysisSummary(used);
    var items := results.items;
    var i := 0;
    while i < |items|
      invariant 0 <= i <= |items|
      invariant forall j :: 0 <= j < i ==> !ItemThrows(mode, items[j])
      invariant rows == seq(i, j requires 0 <= j < i => PostLogRow(at, accountId, theme, mode, summary, items[j], stringify, show))
    {
      if ItemThrows(mode, items[i]) {
        return [];
      }
      rows := rows + [PostLogRow(at, accountId, theme, mode, summary, items[i], stringify, show)];
      i := i + 1;
    }
  }

  /** Without a throwing item every result gets exactly one row, in order, carrying the summary. */
  lemma OneRowPerItem(at: int, accountId: string, theme: string, mode: string, used: Option<AnalysisUsed>,
                      items: seq<Json>, stringify: Json -> string, show: Json -> string)
    requires forall i :: 0 <= i < |items| ==> !ItemThrows(mode, items[i])
    ensures var rows := PostLogRows(at, accountId, theme, mode, used, JArr(items), stringify, show);
      && |rows| == |items|
      && forall i :: 0 <= i < |items| ==>
           rows[i].analysis == AnalysisSummary(used) && rows[i].mode == OrDefault(mode, "normal")
           && (mode != "thread" && items[i].JStr? && items[i].s != "" ==> rows[i].text == items[i])
  {
  }

  /** One throwing item and the block write never happens. */
  lemma ThrowWritesNothing(at: int, accountId: string, theme: string, mode: string, used: Option<AnalysisUsed>,
                           items: seq<Json>, k: nat, stringify: Json -> string, show: Json -> string)
    requires k < |items| && ItemThrows(mode, items[k])
    ensures PostLogRows(at, accountId, theme, mode, used, JArr(items), stringify, show) == []
  {
  }

  /** A generated thread item logs the thread layout, which `parseThreadParts_` splits back into the parent and the replies. */
  lemma ThreadItemRoundTrip(parent: string, replies: seq<string>, stringify: Json -> string, show: Json -> string)
    requires Drafts.PlainPart(parent) && 1 <= |replies| <= Drafts.MaxParts - 1
    requires forall i :: 0 <= i < |replies| ==> Drafts.PlainPart(replies[i])
    ensures var item := JObj([("parent", JStr(parent)), ("replies", JArr(seq(|replies|, i requires 0 <= i < |replies| => JStr(replies[i]))))]);
      && !ItemThrows("thread", item)
      && ItemText("thread", item, stringify, show).JStr?
      && Drafts.ParseThreadParts(ItemText("thread", item, stringify, show).s) == [parent] + replies
  {
    var js := seq(|replies|, i requires 0 <= i < |replies| => JStr(replies[i]));
    var item := JObj([("parent", JStr(parent)), ("replies", JArr(js))]);
    var fields := item.fields;
    assert fields[1..] == [("replies", JArr(js))];
    assert Lookup(fields, "replies") == Lookup(fields[1..], "replies");
    assert Get(item, "parent") == JStr(parent);
    assert Get(item, "replies") == JArr(js);
    assert Truthy(JStr(parent)) by {
      assert |parent| > 0;
    }
    var texts := seq(|js|, i requires 0 <= i < |js| => JsText(js[i], show));
    assert texts == replies;
    Drafts.ThreadTextRoundTrip(parent, replies);
    assert Take([parent] + replies, Drafts.MaxParts) == [parent] + replies;
  }

  // ------------------------------------------------------------ generatePostWithAnalysis

  /** `analysisUsed` of the result. */
  datatype Used = Used(totalPosts: int, avgErCenti: int, topPostCount: nat, hasTimeData: bool, hasDemographics: bool)

  datatype Generated = Generated(mode: string, results: Json, used: Used)

  /** The summary numbers, 0 for the `{}` of an empty sheet. */
  function SummaryUsed(v: Analytics.AnalyticsView): AnalysisUsed
  {
    match v.summary
    case None => AnalysisUsed(0, 0, |TopPosts(v.posts)|)
    case Some(s) => AnalysisUsed(s.totalPosts, s.avgErCenti, |TopPosts(v.posts)|)
  }

  /**
   * `generatePostWithAnalysis`: `analytics` is what `getAnalyticsData` gave
   * (`Err` when it threw), `insight` the ユーザーインサイト sheet and `last`
   * its last row, `reply` the text of the first candidate (`Err` when the
   * request threw). The time analysis never carries a heat map, so
   * `hasTimeData` is always false.
   */
  method GeneratePostWithAnalysis(s: map<string, string>, theme: string, analytics: Result<Analytics.AnalyticsView>,
                                  insight: Sheet<InsightRow>, last: seq<Json>, reply: Result<string>,
                                  parse: string -> Option<Json>, log: Sheet<AiLogRow>, at: int, accountId: string,
                                  stringify: Json -> string, show: Json -> string)
    returns (r: Result<Generated>)
    modifies log
    ensures Settings.Setting(s, "gemini_api_key") == "" ==> r == Err(KeyUnsetMessage) && unchanged(log)
    ensures Settings.Setting(s, "gemini_api_key") != "" && analytics.Err? ==> r == Err(analytics.error) && unchanged(log)
    ensures Settings.Setting(s, "gemini_api_key") != "" && analytics.Ok? && reply.Err? ==> r == Err(reply.error) && unchanged(log)
    ensures Settings.Setting(s, "gemini_api_key") != "" && analytics.Ok? && reply.Ok? ==> r.Ok?
    ensures r.Ok? ==>
      && Settings.Setting(s, "gemini_api_key") != "" && analytics.Ok? && reply.Ok?
      && var v, results := analytics.value, ResultsOf(reply.value, parse);
      && var a := SummaryUsed(v);
      && r.value == Generated(AnalysisMode, results,
                              Used(a.totalPosts, a.avgErCenti, a.topPostCount, false,
                                   HasDemographics(insight.present, |insight.rows|, insight.headers, last)))
      && Gemini.LogAppended(log, old(log.present), old(log.headers), old(log.rows), PostLogHeaders,
                            PostLogRows(at, accountId, theme, AnalysisMode, Some(a), results, stringify, show))
  {
    if Settings.Setting(s, "gemini_api_key") == "" {
      return Err(KeyUnsetMessage);
    }
    if analytics.Err? {
      return Err(analytics.error);
    }
    var v := analytics.value;
    var top := TopPosts(v.posts);
    var demo: map<string, Json> := map[];
    if insight.present && |insight.rows| > 0 {
      demo := CollectDemographics(insight.headers, last);
    }
    if reply.Err? {
      return Err(reply.error);
    }
    var results := ResultsOf(reply.value, parse);
    var a := SummaryUsed(v);
    StorePostLog(log, at, accountId, theme, AnalysisMode, Some(a), results, stringify, show);
    r := Ok(Generated(AnalysisMode, results, Used(a.totalPosts, a.avgErCenti, |top|, false, demo != map[])));
  }

  // ------------------------------------------------------------ generatePostWithAI

  /**
   * What `generatePostWithAI` returns: the analysis generator's result when
   * the mode hands the request over, else the results with their mode, theme
   * and `count` (None when `results.length` is `undefined`).
   */
  datatype AiOutcome =
    | Analysed(generated: Generated)
    | Drafted(results: Json, mode: string, theme: string, count: Option<Json>)

  /**
   * `generatePostWithAI` of Gemini.js. It lives here because its analysis
   * modes hand the same request to `generatePostWithAnalysis`, whose inputs
   * (`analytics`, `insight`, `last`, `stringify`, `show`) follow `parse`;
   * `reply` is what the one Gemini call returned or threw, `accountId` the
   * active account's id ("" without one) and `nowMs` the time of the log
   * rows. Both paths log to the AI生成ログ sheet `log`.
   */
  method GeneratePostWithAI(log: Sheet<AiLogRow>, s: map<string, string>, accountId: string, nowMs: int,
                            p: Gemini.PostParams, reply: Result<string>, parse: string -> Option<Json>,
                            analytics: Result<Analytics.AnalyticsView>, insight: Sheet<InsightRow>, last: seq<Json>,
                            stringify: Json -> string, show: Json -> string)
    returns (r: Result<AiOutcome>)
    modifies log
    ensures Gemini.RouteOf(p, s).Err? ==> r == Err(Gemini.RouteOf(p, s).error) && unchanged(log)
    ensures Gemini.RouteOf(p, s) == Ok(Gemini.Delegate) ==>
      && (Settings.Setting(s, "gemini_api_key") == "" ==> r == Err(KeyUnsetMessage) && unchanged(log))
      && (Settings.Setting(s, "gemini_api_key") != "" && analytics.Err? ==> r == Err(analytics.error) && unchanged(log))
      && (Settings.Setting(s, "gemini_api_key") != "" && analytics.Ok? && reply.Err? ==> r == Err(reply.error) && unchanged(log))
      && (Settings.Setting(s, "gemini_api_key") != "" && analytics.Ok? && reply.Ok? ==>
            var results, a := ResultsOf(reply.value, parse), SummaryUsed(analytics.value);
            && r == Ok(Analysed(Generated(AnalysisMode, results,
                                          Used(a.totalPosts, a.avgErCenti, a.topPostCount, false,
                                               HasDemographics(insight.present, |insight.rows|, insight.headers, last)))))
            && Gemini.LogAppended(log, old(log.present), old(log.headers), old(log.rows), PostLogHeaders,
                                  PostLogRows(nowMs, accountId, p.theme, AnalysisMode, Some(a), results, stringify, show)))
    ensures Gemini.RouteOf(p, s).Ok? && Gemini.RouteOf(p, s).value.Ask? && reply.Err? ==> r == Err(reply.error) && unchanged(log)
    ensures Gemini.RouteOf(p, s).Ok? && Gemini.RouteOf(p, s).value.Ask? && reply.Ok? ==>
      var a := Gemini.RouteOf(p, s).value;
      var results := Gemini.PostResults(reply.value, Gemini.ParseGeminiJson(reply.value, parse));
      && Gemini.LogAppended(log, old(log.present), old(log.headers), old(log.rows), Gemini.LogHeaders,
                            Gemini.LogRows(nowMs, accountId, a.theme, a.mode, "", results))
      && (Gemini.LengthOf(results).Err? ==> r == Err(Gemini.LengthOf(results).error))
      && (Gemini.LengthOf(results).Ok? ==> r == Ok(Drafted(results, a.mode, a.theme, Gemini.LengthOf(results).value)))
  {
    var route := Gemini.RouteOf(p, s);
    if route.Err? {
      return Err(route.error);
    }
    if route.value.Delegate? {
      var g := GeneratePostWithAnalysis(s, p.theme, analytics, insight, last, reply, parse, log, nowMs, accountId,
                                        stringify, show);
      return if g.Ok? then Ok(Analysed(g.value)) else Err(g.error);
    }
    if reply.Err? {
      return Err(reply.error);
    }
    var results := Gemini.PostResults(reply.value, Gemini.ParseGeminiJson(reply.value, parse));
    Gemini.StoreAIGenerationLog(log, nowMs, accountId, route.value.theme, route.value.mode, "", results);
    var n := Gemini.LengthOf(results);
    r := if n.Ok? then Ok(Drafted(results, route.value.mode, route.value.theme, n.value)) else Err(n.error);
  }
}
