/**
 * Gemini.js: the AI features around the Gemini API. The request itself,
 * the prompts and `JSON.parse` are outside the model: the reply text is an
 * input (`Err` when `callGemini_` threw) and `parse` stands for
 * `JSON.parse` (None when it throws). What is modelled is what the
 * scripts do with their inputs and with the reply: the fence extraction,
 * the input checks and clamps, the selection of the posts a prompt lists,
 * the ER distribution, the fallbacks for unparsable replies and the log.
 */
module Gemini {
  import opened Common
  import opened Store
  import Settings
  import Analytics

  const KeyMissingMessage := "Gemini APIキーが設定されていません。設定画面でAPIキーを登録してください。"
  const ThemeRequiredMessage := "テーマを入力してください"
  const NoAnalyticsMessage := "分析データがありません。先に「分析データ取得」を実行してください。"
  const EmptyTextMessage := "編集する投稿文が空です"
  const RawReason := "JSONパース失敗のため原文を返却"
  const SplitReason := "JSONパース失敗のためテキスト分割で返却"
  const Fence := "```"
  const BlankLine := "\n\n"

  /** `getGeminiKey_`: the stored key, or the error asking for one. */
  function GeminiKey(s: map<string, string>): (r: Result<string>)
    ensures r.Ok? <==> Settings.Setting(s, "gemini_api_key") != ""
    ensures r.Ok? ==> r.value == Settings.Setting(s, "gemini_api_key")
    ensures r.Err? ==> r.error == KeyMissingMessage
  {
    var key := Settings.Setting(s, "gemini_api_key");
    if key == "" then Err(KeyMissingMessage) else Ok(key)
  }

  /** `parseInt(x) || d`: NaN and 0 give the default. */
  function IntOr(x: string, d: int): (n: int)
    ensures n != 0 || d == 0
    ensures ParseInt(x).Some? && ParseInt(x).value != 0 ==> n == ParseInt(x).value
    ensures ParseInt(x).None? || ParseInt(x).value == 0 ==> n == d
  {
    var v := IntOrZero(x);
    if v == 0 then d else v
  }

  // ------------------------------------------------------------ parseGeminiJson_

  predicate NoBacktick(s: string)
  {
    forall i :: 0 <= i < |s| ==> s[i] != '`'
  }

  /**
   * The trimmed capture of `/```(?:json)?\s*([\s\S]*?)```/`: the text after
   * the first ``` and an optional `json` tag, up to the next ```. The
   * `\s*` before the capture is covered by the trim.
   */
  function FenceBody(text: string): Option<string>
  {
    var open := IndexOfFrom(text, Fence, 0);
    if open < 0 then None
    else
      var start := open + 3 + (if StartsWith(text[open + 3..], "json") then 4 else 0);
      var close := IndexOfFrom(text, Fence, start);
      if close < 0 then None else Some(Trim(text[start..close]))
  }

  /** The text `parseGeminiJson_` hands to `JSON.parse`. */
  function Cleaned(text: string): string
  {
    match FenceBody(text)
    case Some(b) => b
    case None => text
  }

  /** `parseGeminiJson_(text)`. */
  function ParseGeminiJson(text: string, parse: string -> Option<Json>): Option<Json>
  {
    parse(Cleaned(text))
  }

  /** The first match of `p` at or after `from` is at `k` when it matches there and nowhere before. */
  lemma IndexOfFromAt(s: string, p: string, from: nat, k: nat)
    requires from <= k <= |s| && StartsWith(s[k..], p)
    requires forall i :: from <= i < k ==> !StartsWith(s[i..], p)
    ensures IndexOfFrom(s, p, from) == k
  {
  }

  /** Text without a backtick holds no fence. */
  lemma NoFenceIn(s: string, from: nat)
    requires from <= |s| && NoBacktick(s[from..])
    ensures IndexOfFrom(s, Fence, from) == -1
  {
    forall i | from <= i <= |s|
      ensures !StartsWith(s[i..], Fence)
    {
      if i < |s| {
        assert s[i..][0] == s[from..][i - from];
      }
    }
  }

  /** The first fence of `pre + rest` opens `rest` when `pre` has no backtick. */
  lemma FirstFenceAt(pre: string, rest: string)
    requires NoBacktick(pre) && StartsWith(rest, Fence)
    ensures IndexOfFrom(pre + rest, Fence, 0) == |pre|
  {
    var text := pre + rest;
    assert text[|pre|..] == rest;
    forall i | 0 <= i < |pre|
      ensures !StartsWith(text[i..], Fence)
    {
      assert text[i..][0] == pre[i];
    }
    IndexOfFromAt(text, Fence, 0, |pre|);
  }

  /** From `start`, the next fence follows a run of text without backticks. */
  lemma NextFenceAt(text: string, start: nat, body: string)
    requires start + |body| <= |text| && text[start..start + |body|] == body && NoBacktick(body)
    requires StartsWith(text[start + |body|..], Fence)
    ensures IndexOfFrom(text, Fence, start) == start + |body|
  {
    forall i | start <= i < start + |body|
      ensures !StartsWith(text[i..], Fence)
    {
      assert text[i..][0] == body[i - start];
    }
    IndexOfFromAt(text, Fence, start, start + |body|);
  }

  /** The `json` tag is recognised exactly when it is there. */
  lemma TagRecognised(tag: string, body: string, post: string)
    requires NoBacktick(body)
    requires tag == "json" || (tag == "" && !StartsWith(body, "json"))
    ensures StartsWith(tag + body + Fence + post, "json") <==> tag == "json"
  {
    var rest := tag + body + Fence + post;
    if tag == "" {
      assert rest == body + Fence + post;
      if |body| >= 4 {
        assert rest[..4] == body[..4];
      } else {
        assert rest[|body|] == '`';
      }
    }
  }

  /** Where the opening fence, the tag and the body of a fenced reply are found. */
  lemma FencedParts(pre: string, tag: string, body: string, post: string)
    requires NoBacktick(pre) && NoBacktick(body)
    requires tag == "json" || (tag == "" && !StartsWith(body, "json"))
    ensures var text := pre + Fence + tag + body + Fence + post;
      && IndexOfFrom(text, Fence, 0) == |pre|
      && |pre| + 3 <= |text|
      && (StartsWith(text[|pre| + 3..], "json") <==> tag == "json")
  {
    var rest := tag + body + Fence + post;
    var text := pre + Fence + tag + body + Fence + post;
    assert text == pre + (Fence + rest);
    FirstFenceAt(pre, Fence + rest);
    assert text[|pre| + 3..] == rest;
    TagRecognised(tag, body, post);
  }

  /** The closing fence of a fenced reply comes right after the body. */
  lemma ClosingFence(pre: string, tag: string, body: string, post: string)
    requires NoBacktick(body)
    ensures var text := pre + Fence + tag + body + Fence + post;
      var start := |pre| + 3 + |tag|;
      && start + |body| <= |text| && text[start..start + |body|] == body
      && IndexOfFrom(text, Fence, start) == start + |body|
  {
    var text := pre + Fence + tag + body + Fence + post;
    var start := |pre| + 3 + |tag|;
    assert text[start..] == body + (Fence + post);
    assert text[start..start + |body|] == body;
    NextFenceAt(text, start, body);
  }

  /**
   * A fenced reply: whatever precedes the first fence, an optional `json`
   * tag, and whatever follows the closing fence, the body comes out
   * trimmed.
   */
  lemma FenceRoundTrip(pre: string, tag: string, body: string, post: string)
    requires NoBacktick(pre) && NoBacktick(body)
    requires tag == "json" || (tag == "" && !StartsWith(body, "json"))
    ensures Cleaned(pre + Fence + tag + body + Fence + post) == Trim(body)
  {
    var text := pre + Fence + tag + body + Fence + post;
    var start := |pre| + 3 + |tag|;
    FencedParts(pre, tag, body, post);
    ClosingFence(pre, tag, body, post);
    FenceBodyAt(text, |pre|, start, start + |body|, body);
  }

  /** `FenceBody` once the opening fence, the start of the body and the closing fence are known. */
  lemma FenceBodyAt(text: string, open: nat, start: nat, close: nat, body: string)
    requires IndexOfFrom(text, Fence, 0) == open && open + 3 <= |text|
    requires start == open + 3 + (if StartsWith(text[open + 3..], "json") then 4 else 0)
    requires IndexOfFrom(text, Fence, start) == close
    requires start <= close <= |text| && text[start..close] == body
    ensures Cleaned(text) == Trim(body)
  {
  }

  /** Without a closing fence the whole text is parsed, untrimmed. */
  lemma UnclosedFence(pre: string, rest: string)
    requires NoBacktick(pre) && NoBacktick(rest)
    ensures Cleaned(pre + Fence + rest) == pre + Fence + rest
  {
    var text := pre + Fence + rest;
    forall i | 0 <= i < |pre|
      ensures !StartsWith(text[i..], Fence)
    {
      assert text[i..][0] == pre[i];
    }
    IndexOfFromAt(text, Fence, 0, |pre|);
    var start := |pre| + 3 + (if StartsWith(text[|pre| + 3..], "json") then 4 else 0);
    assert text[|pre| + 3..] == rest;
    assert text[start..] == rest[start - |pre| - 3..];
    NoFenceIn(text, start);
  }

  /** Without any backtick the text is parsed as it is. */
  lemma NoFence(text: string)
    requires NoBacktick(text)
    ensures Cleaned(text) == text
  {
    assert text[0..] == text;
    NoFenceIn(text, 0);
  }

  // ------------------------------------------------------------ generatePostWithAI

  /** The request: `theme`, `mode` and `count` as given, "" when absent. */
  datatype PostParams = PostParams(theme: string, mode: string, count: string)

  /** How the request proceeds once checked: handed to the analysis generator, or asked of Gemini. */
  datatype Route = Delegate | Ask(theme: string, mode: string, count: int)

  predicate AnalysisMode(mode: string)
  {
    mode == "analysis-based" || mode == "analysis"
  }

  /** `Math.min(Math.max(parseInt(count) || 3, 1), 5)`: the number of patterns asked for. */
  function PatternCount(count: string): (n: int)
    ensures 1 <= n <= 5
    ensures ParseInt(count).None? || ParseInt(count).value == 0 ==> n == 3
    ensures ParseInt(count).Some? && 1 <= ParseInt(count).value <= 5 ==> n == ParseInt(count).value
    ensures ParseInt(count).Some? && ParseInt(count).value > 5 ==> n == 5
    ensures ParseInt(count).Some? && ParseInt(count).value < 0 ==> n == 1
  {
    Min(Max(IntOr(count, 3), 1), 5)
  }

  /** `count` "0x4" is read as hexadecimal and asks for four patterns. */
  lemma HexCountRead()
    ensures PatternCount("0x4") == 4
  {
    var u := "0x4";
    assert HexPrefixed(u) && u[2..] == "4";
    assert HexRun("4") == 1;
    assert LeadingHexDigits(u[2..]) == Some(4);
    ParseIntUnsignedOf(u);
  }

  /** A bare "0x" is NaN and asks for the default three patterns. */
  lemma BareHexCount()
    ensures PatternCount("0x") == 3
  {
    BareHexPrefix("");
    assert "0x" + "" == "0x";
  }

  /** Defaulting an empty mode to 'normal' does not change whether it asks for analysis. */
  lemma DefaultModeKeepsAnalysis(m: string)
    ensures AnalysisMode(OrDefault(m, "normal")) == AnalysisMode(m)
  {
  }

  /** The checks of `generatePostWithAI`, in its order: the theme, then the mode, then the key. */
  function RouteOf(p: PostParams, s: map<string, string>): (r: Result<Route>)
    ensures Trim(p.theme) == "" ==> r == Err(ThemeRequiredMessage)
    ensures Trim(p.theme) != "" && AnalysisMode(p.mode) ==> r == Ok(Delegate)
    ensures Trim(p.theme) != "" && !AnalysisMode(p.mode) ==> (r.Err? <==> GeminiKey(s).Err?)
    ensures Trim(p.theme) != "" && r.Err? ==> r == Err(KeyMissingMessage)
    ensures r.Ok? && r.value.Ask? ==>
      && GeminiKey(s).Ok? && r.value.theme == Trim(p.theme) && r.value.count == PatternCount(p.count)
      && r.value.mode == OrDefault(p.mode, "normal") && !AnalysisMode(r.value.mode)
  {
    var theme := Trim(p.theme);
    if theme == "" then Err(ThemeRequiredMessage)
    else
      var mode := OrDefault(p.mode, "normal");
      DefaultModeKeepsAnalysis(p.mode);
      if AnalysisMode(mode) then Ok(Delegate)
      else match GeminiKey(s)
        case Err(m) => Err(m)
        case Ok(_) => Ok(Ask(theme, mode, PatternCount(p.count)))
  }

  /** A generated item made from text: `{ text, reason }`. */
  function Item(text: string, reason: string): Json
  {
    JObj([("text", JStr(text)), ("reason", JStr(reason))])
  }

  /** The fields of an item made from text. */
  lemma ItemFields(text: string, reason: string)
    ensures Get(Item(text, reason), "text") == JStr(text)
    ensures Get(Item(text, reason), "reason") == JStr(reason)
  {
    var fields := Item(text, reason).fields;
    assert fields[1..] == [("reason", JStr(reason))];
    assert fields[0].0 != "reason";
    assert Lookup(fields, "reason") == Lookup(fields[1..], "reason");
  }

  /** The results of `generatePostWithAI` given the parsed reply: it, or the raw text as the only result. */
  function PostResults(raw: string, parsed: Option<Json>): Json
  {
    match parsed
    case Some(v) => v
    case None => JArr([Item(raw, RawReason)])
  }

  /** What `results.length` throws when the reply parsed to `null`. */
  const NullLengthMessage := "Cannot read properties of null (reading 'length')"

  /** `o[key]` with an absent key read as `undefined` (None) rather than null. */
  function Property(fields: seq<(string, Json)>, key: string): (r: Option<Json>)
    ensures r.None? <==> forall i :: 0 <= i < |fields| ==> fields[i].0 != key
    ensures r.Some? ==> r.value == Lookup(fields, key)
  {
    if |fields| == 0 then None
    else if fields[0].0 == key then Some(fields[0].1)
    else Property(fields[1..], key)
  }

  /**
   * `results.length`: the item count of an array, the length of a string and
   * an object's own `length` property; `undefined` (None) for an object
   * without one, a number or a boolean; on `null` it throws.
   */
  function LengthOf(j: Json): Result<Option<Json>>
  {
    match j
    case JNull => Err(NullLengthMessage)
    case JArr(items) => Ok(Some(JNum(|items|)))
    case JStr(s) => Ok(Some(JNum(|s|)))
    case JObj(fields) => Ok(Property(fields, "length"))
    case _ => Ok(None)
  }

  /** For an array of results without a null, the count returned is the number of rows logged. */
  lemma CountIsRowsLogged(at: int, accountId: string, theme: string, mode: string, items: seq<Json>)
    requires forall i :: 0 <= i < |items| ==> !items[i].JNull?
    ensures LengthOf(JArr(items)) == Ok(Some(JNum(|LogRows(at, accountId, theme, mode, "", JArr(items))|)))
  {
    OneRowPerResult(at, accountId, theme, mode, "", items);
  }

  /** An unparsable reply is returned, and logged, as exactly one result holding the raw text. */
  lemma UnparsableKeptRaw(raw: string, at: int, accountId: string, theme: string, mode: string)
    ensures PostResults(raw, None).JArr? && |PostResults(raw, None).items| == 1
    ensures Get(PostResults(raw, None).items[0], "text") == JStr(raw)
    ensures var rows := LogRows(at, accountId, theme, mode, "", PostResults(raw, None));
      |rows| == 1 && rows[0].text == JStr(raw) && rows[0].reason == JStr(RawReason)
  {
    var item := Item(raw, RawReason);
    ItemFields(raw, RawReason);
    assert FirstWhere([item], IsNull) == None;
    assert Logged([item]) == [item];
    assert |RawReason| > 0;
    var rows := LogRows(at, accountId, theme, mode, "", JArr([item]));
    assert rows[0] == LogRow(at, accountId, theme, mode, "", item);
  }

  /** A blank theme is refused before the key is looked at, whatever the mode and the settings. */
  lemma BlankThemeFirst(p: PostParams, s1: map<string, string>, s2: map<string, string>)
    requires Trim(p.theme) == ""
    ensures RouteOf(p, s1) == RouteOf(p, s2) == Err(ThemeRequiredMessage)
  {
  }

  // ------------------------------------------------------------ storeAIGenerationLog_

  const LogHeaders := ["timestamp", "account_id", "theme", "mode", "text", "reason", "expectedER",
    "bestTime", "mediaAdvice", "analysisUsed"]

  predicate IsNull(j: Json)
  {
    j.JNull?
  }

  /** `(r && r[key]) || ''`. */
  function Field(r: Json, key: string): Json
  {
    if Truthy(r) then OrElse(Get(r, key), JStr("")) else JStr("")
  }

  /** The row `storeAIGenerationLog_` appends for one result; a string result is its own text. */
  function LogRow(at: int, accountId: string, theme: string, mode: string, analysis: string, r: Json): AiLogRow
  {
    AiLogRow(at, accountId, theme, mode,
             if r.JStr? then r else OrElse(Get(r, "text"), JStr("")),
             Field(r, "reason"), Field(r, "expectedER"), Field(r, "bestTime"), Field(r, "mediaAdvice"),
             analysis)
  }

  /** The results the `forEach` gets through: reading `text` of a null result throws. */
  function Logged(items: seq<Json>): (r: seq<Json>)
    ensures r <= items
    ensures forall i :: 0 <= i < |r| ==> !r[i].JNull?
    ensures |r| < |items| ==> items[|r|].JNull?
  {
    match FirstWhere(items, IsNull)
    case None => items
    case Some(k) => items[..k]
  }

  /** The rows appended for `results`: none unless it is an array. */
  function LogRows(at: int, accountId: string, theme: string, mode: string, analysis: string, results: Json): seq<AiLogRow>
  {
    if results.JArr? then
      var items := Logged(results.items);
      seq(|items|, i requires 0 <= i < |items| => LogRow(at, accountId, theme, mode, analysis, items[i]))
    else []
  }

  /** The log sheet exists, keeps its header row (or got the standard one) and gained `added`. */
  ghost predicate LogAppended(log: Sheet<AiLogRow>, wasPresent: bool, oldHeaders: seq<string>, oldRows: seq<AiLogRow>,
                              standard: seq<string>, added: seq<AiLogRow>)
    reads log
  {
    && log.present
    && log.headers == (if wasPresent then oldHeaders else standard)
    && log.rows == RowsIf(wasPresent, oldRows) + added
  }

  /** Results without a null are logged one row each, in order; string results are stored as they are. */
  lemma OneRowPerResult(at: int, accountId: string, theme: string, mode: string, analysis: string, items: seq<Json>)
    requires forall i :: 0 <= i < |items| ==> !items[i].JNull?
    ensures var rows := LogRows(at, accountId, theme, mode, analysis, JArr(items));
      && |rows| == |items|
      && forall i :: 0 <= i < |items| ==>
           rows[i].analysis == analysis && (items[i].JStr? ==> rows[i].text == items[i] && rows[i].reason == JStr(""))
  {
    assert FirstWhere(items, IsNull) == None;
  }

  /**
   * `storeAIGenerationLog_`: creates the sheet with its header row when
   * missing, then appends one row per result until a null result makes the
   * `forEach` throw (the error is caught and logged).
   */
  method StoreAIGenerationLog(log: Sheet<AiLogRow>, at: int, accountId: string, theme: string, mode: string,
                              analysis: string, results: Json)
    modifies log
    ensures LogAppended(log, old(log.present), old(log.headers), old(log.rows), LogHeaders, LogRows(at, accountId, theme, mode, analysis, results))
  {
    if !log.present {
      log.Insert(LogHeaders);
    }
    if !results.JArr? {
      return;
    }
    var items := results.items;
    ghost var start := log.rows;
    var i := 0;
    while i < |items|
      invariant 0 <= i <= |items|
      invariant forall j :: 0 <= j < i ==> !items[j].JNull?
      invariant log.present && log.headers == old(if log.present then log.headers else LogHeaders)
      invariant log.rows == start + seq(i, j requires 0 <= j < i => LogRow(at, accountId, theme, mode, analysis, items[j]))
    {
      if items[i].JNull? {
        assert FirstWhere(items, IsNull) == Some(i) by {
          FirstWhereAt(items, IsNull, i);
        }
        return;
      }
      log.AppendRows([LogRow(at, accountId, theme, mode, analysis, items[i])]);
      i := i + 1;
    }
    assert FirstWhere(items, IsNull) == None;
    assert items[..|items|] == items;
  }

  // ------------------------------------------------------------ generateAnalysisReport

  const TopCount := 5
  const WorstCount := 3

  /** `parseInt(params.periodDays) || 30`. */
  function PeriodDays(periodDays: string): int
  {
    IntOr(periodDays, 30)
  }

  /** The posts ordered by ER, highest first, equal rates in their original order. */
  function ByEr(posts: seq<PostRow>): seq<PostRow>
  {
    SortDesc(posts, Analytics.ErKey)
  }

  /** `sorted.slice(0, 5)`. */
  function TopPosts(posts: seq<PostRow>): seq<PostRow>
  {
    Take(ByEr(posts), TopCount)
  }

  /** `sorted.slice(-3).reverse()`: the three lowest, lowest first. */
  function WorstPosts(posts: seq<PostRow>): seq<PostRow>
  {
    var sorted := ByEr(posts);
    Reverse(sorted[|sorted| - Min(WorstCount, |sorted|)..])
  }

  /** The top posts are the five best, in order: no post left out has a higher rate than the last listed. */
  lemma TopFive(posts: seq<PostRow>)
    ensures var top := TopPosts(posts);
      && |top| == Min(TopCount, |posts|)
      && SortedDesc(top, Analytics.ErKey)
      && multiset(top) <= multiset(posts)
      && (forall p :: p in posts ==> p in top || p.erCenti <= top[|top| - 1].erCenti)
  {
    var sorted := ByEr(posts);
    var top := TopPosts(posts);
    assert sorted == top + sorted[|top|..];
    forall p | p in posts
      ensures p in top || p.erCenti <= top[|top| - 1].erCenti
    {
      SortDescMember(posts, Analytics.ErKey, p);
      var k :| 0 <= k < |sorted| && sorted[k] == p;
      if k >= |top| {
        assert Analytics.ErKey(sorted[|top| - 1]) >= Analytics.ErKey(sorted[k]);
      } else {
        assert top[k] == p;
      }
    }
  }

  /** The worst posts are taken from the tail of the ranking, in reverse. */
  lemma WorstAt(posts: seq<PostRow>, i: nat)
    requires i < |WorstPosts(posts)|
    ensures |WorstPosts(posts)| == Min(WorstCount, |posts|)
    ensures WorstPosts(posts)[i] == ByEr(posts)[|posts| - 1 - i]
  {
  }

  /** The worst posts are the three lowest, lowest first: the first is the minimum and none left out is lower than the last. */
  lemma WorstThree(posts: seq<PostRow>)
    ensures var worst := WorstPosts(posts);
      && |worst| == Min(WorstCount, |posts|)
      && SortedAsc(worst, Analytics.ErKey)
      && multiset(worst) <= multiset(posts)
      && (forall p :: p in posts ==> worst[0].erCenti <= p.erCenti)
      && (forall p :: p in posts ==> p in worst || p.erCenti >= worst[|worst| - 1].erCenti)
  {
    WorstSorted(posts);
    WorstBounds(posts);
  }

  lemma WorstSorted(posts: seq<PostRow>)
    ensures var worst := WorstPosts(posts);
      && |worst| == Min(WorstCount, |posts|)
      && SortedAsc(worst, Analytics.ErKey)
      && multiset(worst) <= multiset(posts)
  {
    var sorted := ByEr(posts);
    var worst := WorstPosts(posts);
    forall i, j | 0 <= i < j < |worst|
      ensures Analytics.ErKey(worst[i]) <= Analytics.ErKey(worst[j])
    {
      WorstAt(posts, i);
      WorstAt(posts, j);
    }
    WorstSubset(posts);
  }

  lemma WorstSubset(posts: seq<PostRow>)
    ensures multiset(WorstPosts(posts)) <= multiset(posts)
  {
    var sorted := ByEr(posts);
    var n := |sorted| - Min(WorstCount, |sorted|);
    var tail := sorted[n..];
    assert sorted == sorted[..n] + tail;
    ReverseMultiset(tail);
  }

  lemma WorstBounds(posts: seq<PostRow>)
    ensures var worst := WorstPosts(posts);
      && (forall p :: p in posts ==> worst[0].erCenti <= p.erCenti)
      && (forall p :: p in posts ==> p in worst || p.erCenti >= worst[|worst| - 1].erCenti)
  {
    var sorted := ByEr(posts);
    var worst := WorstPosts(posts);
    var n := |sorted| - |worst|;
    forall p | p in posts
      ensures worst[0].erCenti <= p.erCenti
      ensures p in worst || p.erCenti >= worst[|worst| - 1].erCenti
    {
      SortDescMember(posts, Analytics.ErKey, p);
      var k :| 0 <= k < |sorted| && sorted[k] == p;
      WorstAt(posts, 0);
      WorstAt(posts, |worst| - 1);
      if k < |sorted| - 1 {
        assert Analytics.ErKey(sorted[k]) >= Analytics.ErKey(sorted[|sorted| - 1]);
      }
      if k >= n {
        WorstAt(posts, |sorted| - 1 - k);
        assert worst[|sorted| - 1 - k] == p;
      } else {
        assert Analytics.ErKey(sorted[k]) >= Analytics.ErKey(sorted[n]);
      }
    }
  }

  lemma {:induction false} ReverseMultiset<T>(s: seq<T>)
    ensures multiset(Reverse(s)) == multiset(s)
  {
    if |s| > 0 {
      var init := s[..|s| - 1];
      ReverseMultiset(init);
      assert Reverse(s) == [s[|s| - 1]] + Reverse(init);
      assert s == init + [s[|s| - 1]];
    }
  }

  /** The report and what it was built from: `top` and `worst` are the posts its prompt lists. */
  datatype AnalysisReport = AnalysisReport(
    report: string, summary: Option<Analytics.Summary>, top: seq<PostRow>, worst: seq<PostRow>, periodDays: int)

  /**
   * `generateAnalysisReport`: `analytics` is what `getAnalyticsData`
   * returned (None when it threw), `reply` the Gemini reply.
   */
  function AnalysisReportOf(s: map<string, string>, periodDays: string, analytics: Option<Analytics.AnalyticsView>,
                            reply: Result<string>): (r: Result<AnalysisReport>)
    ensures GeminiKey(s).Err? ==> r == Err(KeyMissingMessage)
    ensures GeminiKey(s).Ok? && (analytics.None? || |analytics.value.posts| == 0) ==> r == Err(NoAnalyticsMessage)
    ensures GeminiKey(s).Ok? && analytics.Some? && |analytics.value.posts| > 0 && reply.Err? ==> r == Err(reply.error)
    ensures GeminiKey(s).Ok? && analytics.Some? && |analytics.value.posts| > 0 && reply.Ok? ==> r.Ok?
    ensures r.Ok? ==>
      && analytics.Some? && reply == Ok(r.value.report)
      && 1 <= |r.value.top| <= TopCount && 1 <= |r.value.worst| <= WorstCount
      && r.value.top == TopPosts(analytics.value.posts) && r.value.worst == WorstPosts(analytics.value.posts)
      && r.value.periodDays == PeriodDays(periodDays) && r.value.periodDays != 0
  {
    if GeminiKey(s).Err? then Err(KeyMissingMessage)
    else if analytics.None? || |analytics.value.posts| == 0 then Err(NoAnalyticsMessage)
    else match reply
      case Err(m) => Err(m)
      case Ok(report) =>
        var posts := analytics.value.posts;
        Ok(AnalysisReport(report, analytics.value.summary, TopPosts(posts), WorstPosts(posts), PeriodDays(periodDays)))
  }

  // ------------------------------------------------------------ generateImprovementSuggestions

  datatype Bucket = Zero | Low | Medium | High | VeryHigh

  /** The ER band of a post (`erCenti` is the rate in hundredths of a percent). */
  function BucketOf(p: PostRow): Bucket
  {
    if p.erCenti <= 0 && p.metrics.views == 0 && p.metrics.likes == 0 then Zero
    else if p.erCenti < 200 then Low
    else if p.erCenti < 500 then Medium
    else if p.erCenti < 1000 then High
    else VeryHigh
  }

  datatype Buckets = Buckets(zero: nat, low: nat, medium: nat, high: nat, veryHigh: nat)

  function Bump(b: Buckets, k: Bucket): Buckets
  {
    match k
    case Zero => b.(zero := b.zero + 1)
    case Low => b.(low := b.low + 1)
    case Medium => b.(medium := b.medium + 1)
    case High => b.(high := b.high + 1)
    case VeryHigh => b.(veryHigh := b.veryHigh + 1)
  }

  /** The counters after the posts in order. */
  function Tally(posts: seq<PostRow>): Buckets
  {
    if |posts| == 0 then Buckets(0, 0, 0, 0, 0)
    else Bump(Tally(posts[..|posts| - 1]), BucketOf(posts[|posts| - 1]))
  }

  function Total(b: Buckets): nat
  {
    b.zero + b.low + b.medium + b.high + b.veryHigh
  }

  function InBucket(k: Bucket): PostRow -> bool
  {
    p => BucketOf(p) == k
  }

  function CountOf(b: Buckets, k: Bucket): nat
  {
    match k
    case Zero => b.zero
    case Low => b.low
    case Medium => b.medium
    case High => b.high
    case VeryHigh => b.veryHigh
  }

  /** A counter is the number of posts in its band. */
  lemma {:induction false} TallyCount(posts: seq<PostRow>, k: Bucket)
    ensures CountOf(Tally(posts), k) == Count(posts, InBucket(k))
  {
    if |posts| > 0 {
      TallyCount(posts[..|posts| - 1], k);
    }
  }

  /** The counters add up to the number of posts. */
  lemma {:induction false} TallyTotal(posts: seq<PostRow>)
    ensures Total(Tally(posts)) == |posts|
  {
    if |posts| > 0 {
      TallyTotal(posts[..|posts| - 1]);
    }
  }

  /** The `erBuckets` loop. */
  method ErBuckets(posts: seq<PostRow>) returns (b: Buckets)
    ensures b == Tally(posts)
  {
    b := Buckets(0, 0, 0, 0, 0);
    var i := 0;
    while i < |posts|
      invariant 0 <= i <= |posts|
      invariant b == Tally(posts[..i])
    {
      assert posts[..i + 1][..i] == posts[..i];
      var p := posts[i];
      if p.erCenti <= 0 && p.metrics.views == 0 && p.metrics.likes == 0 {
        b := b.(zero := b.zero + 1);
      } else if p.erCenti < 200 {
        b := b.(low := b.low + 1);
      } else if p.erCenti < 500 {
        b := b.(medium := b.medium + 1);
      } else if p.erCenti < 1000 {
        b := b.(high := b.high + 1);
      } else {
        b := b.(veryHigh := b.veryHigh + 1);
      }
      i := i + 1;
    }
    assert posts[..|posts|] == posts;
  }

  datatype Suggestions = Suggestions(suggestions: string, summary: Option<Analytics.Summary>, buckets: Buckets)

  /** `generateImprovementSuggestions`, without the floating-point posting frequency. */
  method GenerateImprovementSuggestions(s: map<string, string>, analytics: Option<Analytics.AnalyticsView>,
                                        reply: Result<string>) returns (r: Result<Suggestions>)
    ensures GeminiKey(s).Err? ==> r == Err(KeyMissingMessage)
    ensures GeminiKey(s).Ok? && (analytics.None? || |analytics.value.posts| == 0) ==> r == Err(NoAnalyticsMessage)
    ensures GeminiKey(s).Ok? && analytics.Some? && |analytics.value.posts| > 0 && reply.Err? ==> r == Err(reply.error)
    ensures GeminiKey(s).Ok? && analytics.Some? && |analytics.value.posts| > 0 && reply.Ok? ==> r.Ok?
    ensures r.Ok? ==>
      && analytics.Some? && reply == Ok(r.value.suggestions) && r.value.summary == analytics.value.summary
      && r.value.buckets == Tally(analytics.value.posts) && Total(r.value.buckets) == |analytics.value.posts|
  {
    if GeminiKey(s).Err? {
      return Err(KeyMissingMessage);
    }
    if analytics.None? || |analytics.value.posts| == 0 {
      return Err(NoAnalyticsMessage);
    }
    var b := ErBuckets(analytics.value.posts);
    TallyTotal(analytics.value.posts);
    if reply.Err? {
      return Err(reply.error);
    }
    r := Ok(Suggestions(reply.value, analytics.value.summary, b));
  }

  // ------------------------------------------------------------ refinePostWithAI

  const ValidStyles := ["improve", "shorter", "longer", "casual", "professional", "engaging", "hook"]

  /** The style whose description the prompt uses: an unknown style reads as 'improve'. */
  function DescribedStyle(style: string): (r: string)
    ensures r in ValidStyles
    ensures style in ValidStyles ==> r == style
    ensures style !in ValidStyles ==> r == "improve"
  {
    if style in ValidStyles then style else "improve"
  }

  /** `s.split(sep)`. */
  function SplitOn(s: string, sep: string): (r: seq<string>)
    requires |sep| > 0
    ensures |r| >= 1
    decreases |s|
  {
    var i := IndexOfFrom(s, sep, 0);
    if i < 0 then [s] else [s[..i]] + SplitOn(s[i + |sep|..], sep)
  }

  /** `pieces.join(sep)`. */
  function Join(pieces: seq<string>, sep: string): string
  {
    if |pieces| == 0 then ""
    else if |pieces| == 1 then pieces[0]
    else pieces[0] + sep + Join(pieces[1..], sep)
  }

  /** The text before the first match of `p` holds no match of `p`. */
  lemma NoMatchBefore(s: string, p: string, i: nat)
    requires |p| > 0 && i == IndexOfFrom(s, p, 0)
    ensures !Contains(s[..i], p)
  {
    forall j | 0 <= j <= i
      ensures !StartsWith(s[..i][j..], p)
    {
      if j + |p| <= i {
        assert s[..i][j..][..|p|] == s[j..][..|p|];
      }
    }
  }

  /** Splitting loses nothing: joining the pieces gives the text back, and no piece holds the separator. */
  lemma {:induction false} SplitJoin(s: string, sep: string)
    requires |sep| > 0
    ensures Join(SplitOn(s, sep), sep) == s
    ensures forall k :: 0 <= k < |SplitOn(s, sep)| ==> !Contains(SplitOn(s, sep)[k], sep)
    decreases |s|
  {
    var i := IndexOfFrom(s, sep, 0);
    if i < 0 {
      assert IndexOfFrom(s, sep, 0) == -1;
    } else {
      var rest := s[i + |sep|..];
      SplitJoin(rest, sep);
      assert s == s[..i] + sep + rest by {
        assert s[i..][..|sep|] == sep;
      }
      NoMatchBefore(s, sep, i);
      var pieces := SplitOn(s, sep);
      assert pieces == [s[..i]] + SplitOn(rest, sep);
      assert pieces[1..] == SplitOn(rest, sep);
    }
  }

  function NonBlank(l: string): bool
  {
    Trim(l) != ""
  }

  /** The blank-line blocks the fallback keeps: non-blank, at most three. */
  function Blocks(raw: string): seq<string>
  {
    Take(Filter(SplitOn(raw, BlankLine), NonBlank), 3)
  }

  /** One result per kept block, its text trimmed. */
  function SplitItems(blocks: seq<string>): (r: seq<Json>)
    ensures |r| == |blocks|
    ensures forall i :: 0 <= i < |r| ==> r[i] == Item(Trim(blocks[i]), SplitReason)
  {
    if |blocks| == 0 then []
    else
      var init := blocks[..|blocks| - 1];
      assert forall i :: 0 <= i < |init| ==> init[i] == blocks[i];
      SplitItems(init) + [Item(Trim(blocks[|blocks| - 1]), SplitReason)]
  }

  /** The fallback results for an unparsable reply. */
  function Fallback(raw: string): seq<Json>
  {
    var blocks := Blocks(raw);
    if |blocks| == 0 then [Item(Trim(raw), RawReason)] else SplitItems(blocks)
  }

  /** Each block's result carries the block's trimmed text. */
  lemma SplitItemsText(blocks: seq<string>)
    ensures forall i :: 0 <= i < |blocks| ==> Get(SplitItems(blocks)[i], "text") == JStr(Trim(blocks[i]))
  {
    forall i | 0 <= i < |blocks|
      ensures Get(SplitItems(blocks)[i], "text") == JStr(Trim(blocks[i]))
    {
      ItemFields(Trim(blocks[i]), SplitReason);
    }
  }

  /** The kept blocks are pieces of the reply between blank lines, none of them blank. */
  lemma BlocksKept(raw: string)
    ensures forall b :: b in Blocks(raw) ==> b in SplitOn(raw, BlankLine) && Trim(b) != ""
  {
    var pieces := SplitOn(raw, BlankLine);
    var kept := Filter(pieces, NonBlank);
    forall b | b in Blocks(raw)
      ensures b in pieces && Trim(b) != ""
    {
      assert b in kept;
      FilterMember(pieces, NonBlank, b);
    }
  }

  /**
   * The fallback gives one to three results: the non-blank blocks between
   * blank lines, trimmed and in order, or the trimmed reply when there are none.
   */
  lemma FallbackShape(raw: string)
    ensures var blocks, f := Blocks(raw), Fallback(raw);
      && 1 <= |f| <= 3
      && (|blocks| == 0 ==> f == [Item(Trim(raw), RawReason)])
      && (|blocks| > 0 ==> |f| == |blocks|)
      && (|blocks| > 0 ==> forall i :: 0 <= i < |f| ==> Get(f[i], "text") == JStr(Trim(blocks[i])))
      && (forall b :: b in blocks ==> b in SplitOn(raw, BlankLine) && Trim(b) != "")
  {
    SplitItemsText(Blocks(raw));
    BlocksKept(raw);
  }

  /** Appending one block to the kept prefix appends its result. */
  lemma SplitItemsStep(lines: seq<string>, i: nat)
    requires i < |lines|
    ensures SplitItems(lines[..i + 1]) == SplitItems(lines[..i]) + [Item(Trim(lines[i]), SplitReason)]
  {
    assert lines[..i + 1][..i] == lines[..i];
  }

  /** The fallback in terms of the kept non-blank blocks. */
  lemma FallbackOfLines(raw: string, lines: seq<string>, n: nat)
    requires lines == Filter(SplitOn(raw, BlankLine), NonBlank)
    requires n == if |lines| < 3 then |lines| else 3
    ensures Fallback(raw) == if n == 0 then [Item(Trim(raw), RawReason)] else SplitItems(lines[..n])
  {
    assert Blocks(raw) == lines[..n];
  }

  /** The loop over the first `n` kept blocks, one trimmed result each. */
  method BlockItems(lines: seq<string>, n: nat) returns (results: seq<Json>)
    requires n <= |lines|
    ensures results == SplitItems(lines[..n])
  {
    results := [];
    var i := 0;
    while i < n
      invariant 0 <= i <= n
      invariant results == SplitItems(lines[..i])
    {
      SplitItemsStep(lines, i);
      results := results + [Item(Trim(lines[i]), SplitReason)];
      i := i + 1;
    }
  }

  /** The fallback: up to three blocks, then the raw reply when none was kept. */
  method SplitFallback(raw: string) returns (results: seq<Json>)
    ensures results == Fallback(raw)
  {
    var lines := Filter(SplitOn(raw, BlankLine), NonBlank);
    var n := if |lines| < 3 then |lines| else 3;
    results := BlockItems(lines, n);
    FallbackOfLines(raw, lines, n);
    if n == 0 {
      results := [Item(Trim(raw), RawReason)];
    }
  }

  /** The results of `refinePostWithAI` given the parsed reply: an array as parsed, another value wrapped, else the fallback. */
  function RefineResults(raw: string, parsed: Option<Json>): seq<Json>
  {
    match parsed
    case Some(JArr(items)) => items
    case Some(v) => [v]
    case None => Fallback(raw)
  }

  /** The results taken from the reply once it has been parsed, or split when it could not be. */
  method RefineReply(raw: string, parsed: Option<Json>) returns (results: seq<Json>)
    ensures results == RefineResults(raw, parsed)
  {
    match parsed
    case Some(v) =>
      results := if v.JArr? then v.items else [v];
    case None =>
      results := SplitFallback(raw);
  }

  datatype RefineParams = RefineParams(text: string, style: string, instruction: string)

  datatype Refined = Refined(original: string, style: string, described: string, instruction: Option<string>,
                             results: seq<Json>)

  /** `refinePostWithAI`: the key is checked before the text. */
  method RefinePostWithAI(s: map<string, string>, p: RefineParams, reply: Result<string>,
                          parse: string -> Option<Json>) returns (r: Result<Refined>)
    ensures GeminiKey(s).Err? ==> r == Err(KeyMissingMessage)
    ensures GeminiKey(s).Ok? && Trim(p.text) == "" ==> r == Err(EmptyTextMessage)
    ensures GeminiKey(s).Ok? && Trim(p.text) != "" && reply.Err? ==> r == Err(reply.error)
    ensures GeminiKey(s).Ok? && Trim(p.text) != "" && reply.Ok? ==> r.Ok?
    ensures r.Ok? ==>
      && reply.Ok? && r.value.original == Trim(p.text) != ""
      && r.value.style == OrDefault(p.style, "improve") && r.value.described == DescribedStyle(r.value.style)
      && r.value.instruction == (if Trim(p.instruction) == "" then None else Some(Trim(p.instruction)))
      && r.value.results == RefineResults(reply.value, ParseGeminiJson(reply.value, parse))
  {
    if GeminiKey(s).Err? {
      return Err(KeyMissingMessage);
    }
    var text := Trim(p.text);
    if text == "" {
      return Err(EmptyTextMessage);
    }
    var style := OrDefault(p.style, "improve");
    var instruction := Trim(p.instruction);
    if reply.Err? {
      return Err(reply.error);
    }
    var results := RefineReply(reply.value, ParseGeminiJson(reply.value, parse));
    r := Ok(Refined(text, style, DescribedStyle(style), if instruction == "" then None else Some(instruction), results));
  }

  /** An unparsable refinement still yields one to three results. */
  lemma RefineNeverEmptyOnFailure(raw: string)
    ensures 1 <= |RefineResults(raw, None)| <= 3
  {
    FallbackShape(raw);
  }
}
