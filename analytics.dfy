/**
 * Post analytics (機能1): collecting the account's posts page by page,
 * deciding which posts get their insights fetched, fetching them in
 * batches, and merging the results into 分析データ; then the per-account
 * listing with its summary.
 */
module Analytics {
  import opened Common
  import opened Store

  // ------------------------------------------------------------ engagement rate

  /** The numerator of the engagement rate: shares are not part of it. */
  function Engagement(m: Metrics): int
  {
    m.likes + m.replies + m.reposts + m.quotes
  }

  /**
   * `Math.round(engagement / views * 10000) / 100`, kept as the integer
   * number of hundredths of a percent: the integer nearest to
   * 10000 · engagement / views (halves round up), 0 without views.
   */
  function ErCenti(m: Metrics): (r: int)
    ensures m.views <= 0 ==> r == 0
    ensures m.views > 0 ==>
      (r as real - 0.5) * m.views as real <= (m.likes + m.replies + m.reposts + m.quotes) as real * 10000.0
    ensures m.views > 0 ==>
      (m.likes + m.replies + m.reposts + m.quotes) as real * 10000.0 < (r as real + 0.5) * m.views as real
  {
    if m.views > 0 then
      var v := m.views as real;
      var x := Engagement(m) as real * 10000.0 / v;
      var r := Round(x);
      assert x * v == Engagement(m) as real * 10000.0;
      MulMono(r as real - 0.5, x, v);
      MulMonoStrict(x, r as real + 0.5, v);
      assert Engagement(m) as real * 10000.0 < (r as real + 0.5) * v;
      r
    else 0
  }

  lemma MulMono(a: real, b: real, v: real)
    requires a <= b && v > 0.0
    ensures a * v <= b * v
  {
  }

  lemma MulMonoStrict(a: real, b: real, v: real)
    requires a < b && v > 0.0
    ensures a * v < b * v
  {
  }

  /** The rate is a percentage of the views: between 0 and 100.00 when engagement does not exceed views. */
  lemma ErBounds(m: Metrics)
    requires m.likes >= 0 && m.replies >= 0 && m.reposts >= 0 && m.quotes >= 0
    requires Engagement(m) <= m.views
    ensures 0 <= ErCenti(m) <= 10000
  {
    if m.views > 0 {
      RateBounds(ErCenti(m), Engagement(m) as real, m.views as real);
    }
  }

  lemma RateBounds(r: int, e: real, v: real)
    requires v > 0.0 && 0.0 <= e <= v
    requires (r as real - 0.5) * v <= e * 10000.0 < (r as real + 0.5) * v
    ensures 0 <= r <= 10000
  {
    if r < 0 {
      MulMono(r as real + 0.5, 0.0, v);
    }
    if r > 10000 {
      MulMonoStrict(10000.0, r as real - 0.5, v);
      MulMono(e, v, 10000.0);
    }
  }

  // ------------------------------------------------------------ paging

  /** One post of the `/threads` listing; absent fields read as "" or false. */
  datatype ApiPost = ApiPost(
    id: string, text: string, mediaType: string, timestamp: Option<Stamp>,
    permalink: string, isQuotePost: bool)

  /** One listing page: its `error.message`, its `data` array and `paging.next`. */
  datatype Page = Page(error: Option<string>, data: seq<ApiPost>, next: Option<string>)

  const MaxPages: nat := 5

  /**
   * The posts of the pages reached from `url` within `budget` requests:
   * a failed request or a page carrying an error ends everything with that
   * error; a page without `paging.next` is the last one.
   */
  function CollectPages(url: string, fetch: string -> Result<Page>, budget: nat): Result<seq<ApiPost>>
    decreases budget
  {
    if budget == 0 then Ok([])
    else match fetch(url)
      case Err(e) => Err(e)
      case Ok(p) =>
        if p.error.Some? then Err(p.error.value)
        else if p.next.None? then Ok(p.data)
        else Prepend(p.data, CollectPages(p.next.value, fetch, budget - 1))
  }

  function Prepend(front: seq<ApiPost>, r: Result<seq<ApiPost>>): Result<seq<ApiPost>>
  {
    match r
    case Ok(rest) => Ok(front + rest)
    case Err(e) => Err(e)
  }

  /** Number of requests `CollectPages` makes: never more than the budget, at least one when any is allowed. */
  function PagesFetched(url: string, fetch: string -> Result<Page>, budget: nat): (n: nat)
    ensures n <= budget
    ensures budget > 0 ==> n >= 1
    decreases budget
  {
    if budget == 0 then 0
    else match fetch(url)
      case Err(_) => 1
      case Ok(p) =>
        if p.error.Some? || p.next.None? then 1
        else 1 + PagesFetched(p.next.value, fetch, budget - 1)
  }

  /** The paging loop of `fetchAndStorePostAnalytics`. */
  method CollectPosts(firstUrl: string, fetch: string -> Result<Page>) returns (r: Result<seq<ApiPost>>, pages: nat)
    ensures r == CollectPages(firstUrl, fetch, MaxPages)
    ensures pages == PagesFetched(firstUrl, fetch, MaxPages) && pages <= MaxPages
  {
    var all: seq<ApiPost> := [];
    var url := firstUrl;
    pages := 0;
    match CollectPages(url, fetch, MaxPages) {
      case Ok(rest) => assert all + rest == rest;
      case Err(_) =>
    }
    while pages < MaxPages
      invariant pages <= MaxPages
      invariant Prepend(all, CollectPages(url, fetch, MaxPages - pages)) == CollectPages(firstUrl, fetch, MaxPages)
      invariant pages + PagesFetched(url, fetch, MaxPages - pages) == PagesFetched(firstUrl, fetch, MaxPages)
    {
      var res := fetch(url);
      pages := pages + 1;
      if res.Err? {
        return Err(res.error), pages;
      }
      var data := res.value;
      if data.error.Some? {
        return Err(data.error.value), pages;
      }
      if data.next.None? {
        return Ok(all + data.data), pages;
      }
      match CollectPages(data.next.value, fetch, MaxPages - pages) {
        case Ok(rest) => assert all + data.data + rest == all + (data.data + rest);
        case Err(_) =>
      }
      all := all + data.data;
      url := data.next.value;
    }
    assert all + [] == all;
    return Ok(all), pages;
  }

  /** A first page without `paging.next` is the only page requested. */
  lemma SinglePage(url: string, fetch: string -> Result<Page>, p: Page)
    requires fetch(url) == Ok(p) && p.error.None? && p.next.None?
    ensures CollectPages(url, fetch, MaxPages) == Ok(p.data)
    ensures PagesFetched(url, fetch, MaxPages) == 1
  {
  }

  // ------------------------------------------------------------ stored posts

  /**
   * `existingRowMap`: each post id of the account's rows mapped to its
   * data-row index; when an id repeats, the row nearest the bottom wins.
   */
  function RowIndex(rows: seq<PostRow>, accountId: string): (m: map<string, nat>)
    ensures forall k :: k in m ==> m[k] < |rows| && rows[m[k]].postId == k && rows[m[k]].accountId == accountId
    ensures forall k :: k in m ==> k != ""
  {
    if |rows| == 0 then map[]
    else
      var last := rows[|rows| - 1];
      var m := RowIndex(rows[..|rows| - 1], accountId);
      if last.accountId == accountId && last.postId != "" then m[last.postId := |rows| - 1] else m
  }

  /** Every non-blank post id of the account is indexed, at that row or one further down. */
  lemma {:induction false} RowIndexComplete(rows: seq<PostRow>, accountId: string, i: nat)
    requires i < |rows| && rows[i].accountId == accountId && rows[i].postId != ""
    ensures rows[i].postId in RowIndex(rows, accountId)
    ensures RowIndex(rows, accountId)[rows[i].postId] >= i
    decreases |rows|
  {
    if i < |rows| - 1 {
      RowIndexComplete(rows[..|rows| - 1], accountId, i);
    }
  }

  /** The scan of the stored rows that builds `existingIds` and `existingRowMap`. */
  method IndexStoredPosts(rows: seq<PostRow>, accountId: string) returns (m: map<string, nat>)
    ensures m == RowIndex(rows, accountId)
  {
    m := map[];
    var e := 0;
    while e < |rows|
      invariant 0 <= e <= |rows|
      invariant m == RowIndex(rows[..e], accountId)
    {
      assert rows[..e + 1][..e] == rows[..e];
      if rows[e].accountId == accountId && rows[e].postId != "" {
        m := m[rows[e].postId := e];
      }
      e := e + 1;
    }
    assert rows[..e] == rows;
  }

  // ------------------------------------------------------------ insight targets

  function IsStored(index: map<string, nat>): ApiPost -> bool
  {
    (p: ApiPost) => p.id in index
  }

  function IsNew(index: map<string, nat>): ApiPost -> bool
  {
    (p: ApiPost) => p.id !in index
  }

  const MaxUpdateExisting: nat := 50

  /** `postsToFetchInsights`: every new post, then the first 50 stored ones in listing order. */
  function InsightTargets(posts: seq<ApiPost>, index: map<string, nat>): seq<ApiPost>
  {
    Filter(posts, IsNew(index)) + Take(Filter(posts, IsStored(index)), MaxUpdateExisting)
  }

  /** The `forEach` that splits the listing into new and stored posts. */
  method SplitPosts(posts: seq<ApiPost>, index: map<string, nat>) returns (newOnes: seq<ApiPost>, stored: seq<ApiPost>)
    ensures newOnes == Filter(posts, IsNew(index))
    ensures stored == Filter(posts, IsStored(index))
  {
    newOnes, stored := [], [];
    var i := 0;
    while i < |posts|
      invariant 0 <= i <= |posts|
      invariant newOnes == Filter(posts[..i], IsNew(index))
      invariant stored == Filter(posts[..i], IsStored(index))
    {
      assert posts[..i + 1][..i] == posts[..i];
      if posts[i].id in index {
        stored := stored + [posts[i]];
      } else {
        newOnes := newOnes + [posts[i]];
      }
      i := i + 1;
    }
    assert posts[..i] == posts;
  }

  /** Every new post of the listing gets its insights fetched. */
  lemma NewPostsAreTargets(posts: seq<ApiPost>, index: map<string, nat>, i: nat)
    requires i < |posts| && posts[i].id !in index
    ensures posts[i] in InsightTargets(posts, index)
  {
    FilterContains(posts, IsNew(index), i);
  }

  /** At most 50 stored posts are among the targets, and they are the first stored ones listed. */
  lemma StoredTargetsCapped(posts: seq<ApiPost>, index: map<string, nat>)
    ensures Filter(InsightTargets(posts, index), IsStored(index)) == Take(Filter(posts, IsStored(index)), MaxUpdateExisting)
    ensures |Filter(InsightTargets(posts, index), IsStored(index))| <= MaxUpdateExisting
  {
    var newOnes := Filter(posts, IsNew(index));
    var stored := Take(Filter(posts, IsStored(index)), MaxUpdateExisting);
    FilterConcat(newOnes, stored, IsStored(index));
    FilterNone(newOnes, IsStored(index));
    assert forall i :: 0 <= i < |stored| ==> stored[i] == Filter(posts, IsStored(index))[i];
    FilterAll(stored, IsStored(index));
  }

  // ------------------------------------------------------------ insight replies

  /** One entry of an insights reply: the metric name and `values[0].value` when `values[0]` exists. */
  datatype MetricValue = MetricValue(name: string, first: Option<int>)

  /** A reply body: not JSON at all, or JSON with or without a `data` array. */
  datatype InsightReply = Unparsable | Parsed(data: Option<seq<MetricValue>>)

  const MetricNames: seq<string> := ["views", "likes", "replies", "reposts", "quotes", "shares"]

  /** `insights[name]` for the six metric names. */
  function Metric(m: Metrics, name: string): int
  {
    match name
    case "views" => m.views
    case "likes" => m.likes
    case "replies" => m.replies
    case "reposts" => m.reposts
    case "quotes" => m.quotes
    case "shares" => m.shares
    case _ => 0
  }

  /** `insights[name] = v`; other names add a key nothing reads. */
  function SetMetric(m: Metrics, name: string, v: int): (r: Metrics)
    ensures forall n :: n in MetricNames ==> Metric(r, n) == if n == name then v else Metric(m, n)
  {
    match name
    case "views" => m.(views := v)
    case "likes" => m.(likes := v)
    case "replies" => m.(replies := v)
    case "reposts" => m.(reposts := v)
    case "quotes" => m.(quotes := v)
    case "shares" => m.(shares := v)
    case _ => m
  }

  /** The `forEach` over `insData.data`, in order. */
  function FoldMetrics(m: Metrics, data: seq<MetricValue>): Metrics
  {
    if |data| == 0 then m
    else
      var rest := FoldMetrics(m, data[..|data| - 1]);
      var d := data[|data| - 1];
      if d.first.Some? then SetMetric(rest, d.name, d.first.value) else rest
  }

  /** The metrics a reply yields: all zero unless it parses and carries `data`. */
  function MetricsOf(reply: InsightReply): Metrics
  {
    match reply
    case Unparsable => ZeroMetrics
    case Parsed(None) => ZeroMetrics
    case Parsed(Some(data)) => FoldMetrics(ZeroMetrics, data)
  }

  /** The value of the last entry named `name` that has a value, else `dflt`. */
  function LastValue(data: seq<MetricValue>, name: string, dflt: int): int
  {
    if |data| == 0 then dflt
    else if data[|data| - 1].name == name && data[|data| - 1].first.Some? then data[|data| - 1].first.value
    else LastValue(data[..|data| - 1], name, dflt)
  }

  /** Each metric ends up as the last value the reply gives for it, or zero. */
  lemma {:induction false} FoldMetricsLastWins(m: Metrics, data: seq<MetricValue>, name: string)
    requires name in MetricNames
    ensures Metric(FoldMetrics(m, data), name) == LastValue(data, name, Metric(m, name))
  {
    if |data| > 0 {
      FoldMetricsLastWins(m, data[..|data| - 1], name);
    }
  }

  // ------------------------------------------------------------ batched fetching

  const BatchSize: nat := 5

  function Ids(posts: seq<ApiPost>): (r: seq<string>)
    ensures |r| == |posts| && forall i :: 0 <= i < |posts| ==> r[i] == posts[i].id
  {
    seq(|posts|, i requires 0 <= i < |posts| => posts[i].id)
  }

  function IdSet(posts: seq<ApiPost>): set<string>
  {
    set i | 0 <= i < |posts| :: posts[i].id
  }

  function Flatten(batches: seq<seq<string>>): seq<string>
  {
    if |batches| == 0 then [] else Flatten(batches[..|batches| - 1]) + batches[|batches| - 1]
  }

  /** `insightsMap` once every batch is in: one record per target id. */
  function InsightsOf(targets: seq<ApiPost>, reply: string -> InsightReply): map<string, Metrics>
  {
    map k | k in IdSet(targets) :: MetricsOf(reply(k))
  }

  /**
   * The batch loop: consecutive batches of five requests (the last one
   * possibly shorter), one sleep between two batches and none after the
   * last, and a metrics record for every target whatever its reply.
   */
  method FetchInsights(targets: seq<ApiPost>, reply: string -> InsightReply)
    returns (insights: map<string, Metrics>, batches: seq<seq<string>>, sleeps: nat)
    ensures insights == InsightsOf(targets, reply)
    ensures Flatten(batches) == Ids(targets)
    ensures forall b :: 0 <= b < |batches| ==> 1 <= |batches[b]| <= BatchSize
    ensures forall b :: 0 <= b < |batches| - 1 ==> |batches[b]| == BatchSize
    ensures sleeps == if |batches| == 0 then 0 else |batches| - 1
  {
    insights := map[];
    batches := [];
    sleeps := 0;
    var start := 0;
    while start < |targets|
      invariant 0 <= start <= |targets|
      invariant Flatten(batches) == Ids(targets[..start])
      invariant forall b :: 0 <= b < |batches| ==> 1 <= |batches[b]| <= BatchSize
      invariant start < |targets| ==> forall b :: 0 <= b < |batches| ==> |batches[b]| == BatchSize
      invariant forall b :: 0 <= b < |batches| - 1 ==> |batches[b]| == BatchSize
      invariant sleeps == if start < |targets| || |batches| == 0 then |batches| else |batches| - 1
      invariant insights.Keys == IdSet(targets[..start])
      invariant forall k :: k in insights ==> insights[k] == MetricsOf(reply(k))
      decreases |targets| - start
    {
      var end := Min(start + BatchSize, |targets|);
      var batch := targets[start..end];
      insights := FetchBatch(insights, batch, reply);
      SplitIds(targets, start, end);
      assert Flatten(batches + [Ids(batch)]) == Flatten(batches) + Ids(batch) by {
        assert (batches + [Ids(batch)])[..|batches|] == batches;
      }
      batches := batches + [Ids(batch)];
      if start + BatchSize < |targets| {
        sleeps := sleeps + 1;
      }
      start := end;
    }
    assert targets[..start] == targets;
  }

  /** One `fetchAll` batch: a metrics record for each post of the batch. */
  method FetchBatch(before: map<string, Metrics>, batch: seq<ApiPost>, reply: string -> InsightReply)
    returns (insights: map<string, Metrics>)
    ensures insights.Keys == before.Keys + IdSet(batch)
    ensures forall k :: k in insights ==> insights[k] == if k in IdSet(batch) then MetricsOf(reply(k)) else before[k]
  {
    insights := before;
    var i := 0;
    while i < |batch|
      invariant 0 <= i <= |batch|
      invariant insights.Keys == before.Keys + IdSet(batch[..i])
      invariant forall k :: k in insights ==> insights[k] == if k in IdSet(batch[..i]) then MetricsOf(reply(k)) else before[k]
    {
      assert IdSet(batch[..i + 1]) == IdSet(batch[..i]) + {batch[i].id} by {
        assert forall j :: 0 <= j < i ==> batch[..i + 1][j] == batch[..i][j];
        assert batch[..i + 1][i] == batch[i];
      }
      insights := insights[batch[i].id := MetricsOf(reply(batch[i].id))];
      i := i + 1;
    }
    assert batch[..i] == batch;
  }

  /** The ids of a prefix split at `start`. */
  lemma SplitIds(targets: seq<ApiPost>, start: nat, end: nat)
    requires start <= end <= |targets|
    ensures IdSet(targets[..end]) == IdSet(targets[..start]) + IdSet(targets[start..end])
    ensures Ids(targets[..end]) == Ids(targets[..start]) + Ids(targets[start..end])
  {
    var batch := targets[start..end];
    forall j | 0 <= j < end
      ensures targets[..end][j].id in IdSet(targets[..start]) + IdSet(batch)
    {
      if j < start {
        assert targets[..end][j] == targets[..start][j];
      } else {
        assert targets[..end][j] == batch[j - start];
      }
    }
    forall j | 0 <= j < |batch|
      ensures batch[j].id in IdSet(targets[..end])
    {
      assert batch[j] == targets[..end][start + j];
    }
    forall j | 0 <= j < start
      ensures targets[..start][j].id in IdSet(targets[..end])
    {
      assert targets[..start][j] == targets[..end][j];
    }
  }

  // ------------------------------------------------------------ writing rows

  /** The overwrite of a stored row: its seven metric cells and `fetched_at`. */
  function RefreshRow(row: PostRow, m: Metrics, now: int): PostRow
  {
    row.(metrics := m, erCenti := ErCenti(m), fetchedAt := now)
  }

  /** The 16-column row appended for a new post (text cut to 50 characters, media type defaulting to TEXT). */
  function NewRow(p: ApiPost, accountId: string, m: Metrics, now: int): PostRow
  {
    PostRow(p.id, accountId, Take(p.text, 50), OrDefault(p.mediaType, "TEXT"), p.timestamp,
            m, ErCenti(m), p.permalink, p.isQuotePost, "", now)
  }

  /** A listed post whose stored row gets overwritten. */
  function WillUpdate(index: map<string, nat>, insights: map<string, Metrics>): ApiPost -> bool
  {
    (p: ApiPost) => p.id in insights && p.id in index
  }

  /** A listed post that gets appended. */
  function WillAppend(index: map<string, nat>, insights: map<string, Metrics>): ApiPost -> bool
  {
    (p: ApiPost) => p.id in insights && p.id !in index
  }

  /** Row identity: everything but the refreshed cells. */
  predicate SameIdentity(a: PostRow, b: PostRow)
  {
    a.postId == b.postId && a.accountId == b.accountId && a.text == b.text && a.mediaType == b.mediaType
    && a.timestamp == b.timestamp && a.permalink == b.permalink && a.isQuotePost == b.isQuotePost
    && a.topicTag == b.topicTag
  }

  /** Whether data row `i` is the indexed row of a post in `updated` that has insights. */
  predicate Targeted(rows: seq<PostRow>, index: map<string, nat>, insights: map<string, Metrics>,
                     updated: set<string>, i: nat)
    requires i < |rows|
  {
    var k := rows[i].postId;
    k in updated && k in insights && k in index && index[k] == i
  }

  /** The stored rows after the overwrites for the posts whose ids are in `updated`. */
  function Refreshed(rows: seq<PostRow>, index: map<string, nat>, insights: map<string, Metrics>,
                     updated: set<string>, now: int): (r: seq<PostRow>)
    ensures |r| == |rows|
    ensures forall i :: 0 <= i < |rows| ==> SameIdentity(r[i], rows[i])
  {
    seq(|rows|, i requires 0 <= i < |rows| =>
      if Targeted(rows, index, insights, updated, i) then RefreshRow(rows[i], insights[rows[i].postId], now)
      else rows[i])
  }

  function PostIds(posts: seq<ApiPost>): set<string>
  {
    set i | 0 <= i < |posts| :: posts[i].id
  }

  function NewRows(posts: seq<ApiPost>, accountId: string, index: map<string, nat>,
                   insights: map<string, Metrics>, now: int): seq<PostRow>
  {
    var newOnes := Filter(posts, WillAppend(index, insights));
    seq(|newOnes|, i requires 0 <= i < |newOnes| => NewRow(newOnes[i], accountId, insights[newOnes[i].id], now))
  }

  /** `index` points at rows holding the ids it maps. */
  predicate IndexesRows(index: map<string, nat>, rows: seq<PostRow>)
  {
    forall k :: k in index ==> index[k] < |rows| && rows[index[k]].postId == k
  }

  /**
   * The write loop of `fetchAndStorePostAnalytics`: every listed post with
   * insights either overwrites its stored row or is appended, in one block
   * after the loop; posts without insights are skipped.
   */
  method WritePosts(sheet: Sheet<PostRow>, posts: seq<ApiPost>, accountId: string,
                    index: map<string, nat>, insights: map<string, Metrics>, now: int)
    returns (appended: nat, updated: nat)
    requires IndexesRows(index, sheet.rows)
    modifies sheet
    ensures sheet.rows == Refreshed(old(sheet.rows), index, insights, PostIds(posts), now)
                          + NewRows(posts, accountId, index, insights, now)
    ensures appended == Count(posts, WillAppend(index, insights))
    ensures updated == Count(posts, WillUpdate(index, insights))
    ensures sheet.headers == old(sheet.headers) && sheet.present == old(sheet.present)
  {
    var original := sheet.rows;
    var newRows: seq<PostRow> := [];
    updated := 0;
    var j := 0;
    assert PostIds(posts[..0]) == {};
    while j < |posts|
      invariant 0 <= j <= |posts|
      invariant sheet.rows == Refreshed(original, index, insights, PostIds(posts[..j]), now)
      invariant newRows == NewRows(posts[..j], accountId, index, insights, now)
      invariant updated == Count(posts[..j], WillUpdate(index, insights))
      invariant sheet.headers == old(sheet.headers) && sheet.present == old(sheet.present)
    {
      var p := posts[j];
      PostIdsSnoc(posts, j);
      NewRowsSnoc(posts, j, accountId, index, insights, now);
      CountSnoc(posts, j, WillUpdate(index, insights));
      RefreshOne(sheet, original, index, insights, PostIds(posts[..j]), p.id, now);
      if p.id in insights && p.id in index {
        updated := updated + 1;
      } else if p.id in insights {
        newRows := newRows + [NewRow(p, accountId, insights[p.id], now)];
      }
      j := j + 1;
    }
    assert posts[..j] == posts;
    if |newRows| > 0 {
      sheet.AppendRows(newRows);
    }
    appended := |newRows|;
  }

  /** How the ids, the appended rows and the update count grow by one listed post. */
  lemma PostIdsSnoc(posts: seq<ApiPost>, j: nat)
    requires j < |posts|
    ensures PostIds(posts[..j + 1]) == PostIds(posts[..j]) + {posts[j].id}
  {
    assert forall i :: 0 <= i < j ==> posts[..j + 1][i] == posts[..j][i];
    assert posts[..j + 1][j] == posts[j];
  }

  lemma NewRowsSnoc(posts: seq<ApiPost>, j: nat, accountId: string, index: map<string, nat>,
                    insights: map<string, Metrics>, now: int)
    requires j < |posts|
    ensures NewRows(posts[..j + 1], accountId, index, insights, now)
      == NewRows(posts[..j], accountId, index, insights, now)
         + (if WillAppend(index, insights)(posts[j]) then [NewRow(posts[j], accountId, insights[posts[j].id], now)] else [])
  {
    var p := posts[j];
    assert posts[..j + 1] == posts[..j] + [p];
    FilterSnoc(posts[..j], p, WillAppend(index, insights));
    var a := NewRows(posts[..j + 1], accountId, index, insights, now);
    var b := NewRows(posts[..j], accountId, index, insights, now);
    var c := if WillAppend(index, insights)(p) then [NewRow(p, accountId, insights[p.id], now)] else [];
    assert |a| == |b| + |c|;
    assert forall i :: 0 <= i < |a| ==> a[i] == (b + c)[i];
  }

  lemma CountSnoc(posts: seq<ApiPost>, j: nat, p: ApiPost -> bool)
    requires j < |posts|
    ensures Count(posts[..j + 1], p) == Count(posts[..j], p) + (if p(posts[j]) then 1 else 0)
  {
    assert posts[..j + 1] == posts[..j] + [posts[j]];
    FilterSnoc(posts[..j], posts[j], p);
  }

  /** One listed post: its stored row is overwritten when it has insights and a row. */
  method RefreshOne(sheet: Sheet<PostRow>, original: seq<PostRow>, index: map<string, nat>,
                    insights: map<string, Metrics>, done: set<string>, id: string, now: int)
    requires IndexesRows(index, original)
    requires sheet.rows == Refreshed(original, index, insights, done, now)
    modifies sheet
    ensures sheet.rows == Refreshed(original, index, insights, done + {id}, now)
    ensures sheet.headers == old(sheet.headers) && sheet.present == old(sheet.present)
  {
    if id in insights && id in index {
      RefreshStep(original, index, insights, done, id, now);
      sheet.SetRow(index[id], RefreshRow(original[index[id]], insights[id], now));
    } else {
      RefreshUntouched(original, index, insights, done, id, now);
    }
  }


  /** Adding an indexed id with insights refreshes exactly its row. */
  lemma RefreshStep(rows: seq<PostRow>, index: map<string, nat>, insights: map<string, Metrics>,
                    done: set<string>, k: string, now: int)
    requires IndexesRows(index, rows) && k in index && k in insights
    ensures Refreshed(rows, index, insights, done + {k}, now)
      == Refreshed(rows, index, insights, done, now)[index[k] := RefreshRow(rows[index[k]], insights[k], now)]
  {
  }

  /** Adding an id that is not both indexed and fetched changes no row. */
  lemma RefreshUntouched(rows: seq<PostRow>, index: map<string, nat>, insights: map<string, Metrics>,
                         done: set<string>, k: string, now: int)
    requires !(k in index && k in insights)
    ensures Refreshed(rows, index, insights, done + {k}, now) == Refreshed(rows, index, insights, done, now)
  {
  }

  /** Rows of other accounts are never overwritten by the merge. */
  lemma RefreshKeepsOtherAccounts(rows: seq<PostRow>, accountId: string, insights: map<string, Metrics>,
                                  updated: set<string>, now: int, i: nat)
    requires i < |rows| && rows[i].accountId != accountId
    ensures Refreshed(rows, RowIndex(rows, accountId), insights, updated, now)[i] == rows[i]
  {
  }

  // ------------------------------------------------------------ the whole run

  datatype FetchSummary = FetchSummary(total: nat, newPosts: nat, updatedPosts: nat)

  const AuthRequiredMessage := "認証が必要です"
  const AnalyticsSheetMissingMessage := "分析データシートが見つかりません"

  /**
   * `fetchAndStorePostAnalytics` for the active account `accountId`:
   * `listingUrl` is the first listing request, `fetch` answers each
   * listing request and `reply` each post's insights request.
   */
  method FetchAndStorePostAnalytics(sheet: Sheet<PostRow>, accessToken: string, accountId: string,
                                    listingUrl: string, fetch: string -> Result<Page>,
                                    reply: string -> InsightReply, now: int)
    returns (r: Result<FetchSummary>)
    modifies sheet
    ensures accessToken == "" ==> r == Err(AuthRequiredMessage)
    ensures r.Err? ==> sheet.rows == old(sheet.rows)
    ensures accessToken != "" && CollectPages(listingUrl, fetch, MaxPages).Err? ==>
      r == Err(CollectPages(listingUrl, fetch, MaxPages).error)
    ensures accessToken != "" && CollectPages(listingUrl, fetch, MaxPages).Ok? && !old(sheet.present) ==>
      r == Err(AnalyticsSheetMissingMessage)
    ensures accessToken != "" && CollectPages(listingUrl, fetch, MaxPages).Ok? && old(sheet.present) ==>
      var posts := CollectPages(listingUrl, fetch, MaxPages).value;
      var index := RowIndex(old(sheet.rows), accountId);
      var insights := InsightsOf(InsightTargets(posts, index), reply);
      && sheet.rows == Refreshed(old(sheet.rows), index, insights, PostIds(posts), now)
                       + NewRows(posts, accountId, index, insights, now)
      && r == Ok(FetchSummary(|posts|, Count(posts, WillAppend(index, insights)),
                              Count(posts, WillUpdate(index, insights))))
    ensures sheet.headers == old(sheet.headers) && sheet.present == old(sheet.present)
  {
    if accessToken == "" {
      return Err(AuthRequiredMessage);
    }
    var listing, pages := CollectPosts(listingUrl, fetch);
    if listing.Err? {
      return Err(listing.error);
    }
    var posts := listing.value;
    if !sheet.present {
      return Err(AnalyticsSheetMissingMessage);
    }
    var index := IndexStoredPosts(sheet.rows, accountId);
    var newOnes, stored := SplitPosts(posts, index);
    var targets := newOnes + Take(stored, MaxUpdateExisting);
    var insights, batches, sleeps := FetchInsights(targets, reply);
    var appended, updated := WritePosts(sheet, posts, accountId, index, insights, now);
    return Ok(FetchSummary(|posts|, appended, updated));
  }

  /** A listed post without an insight record leaves no trace in the sheet. */
  lemma UnfetchedPostNotWritten(posts: seq<ApiPost>, accountId: string, index: map<string, nat>,
                                insights: map<string, Metrics>, now: int, i: nat)
    requires i < |posts| && posts[i].id !in insights
    ensures forall j :: 0 <= j < |NewRows(posts, accountId, index, insights, now)| ==>
      NewRows(posts, accountId, index, insights, now)[j].postId != posts[i].id
  {
    var newOnes := Filter(posts, WillAppend(index, insights));
    forall j | 0 <= j < |newOnes|
      ensures newOnes[j].id != posts[i].id
    {
      assert WillAppend(index, insights)(newOnes[j]);
    }
  }

  // ------------------------------------------------------------ the listing

  datatype Summary = Summary(totalPosts: nat, totals: Metrics, avgErCenti: int)

  /** `{posts, summary}`; `summary` is None for the `{}` of an empty or missing sheet. */
  datatype AnalyticsView = AnalyticsView(posts: seq<PostRow>, summary: Option<Summary>)

  /** The cutoff instant: none without a positive period (or for 'all'). */
  function Cutoff(periodDays: Option<nat>, nowMs: int): Option<int>
  {
    if periodDays.Some? && periodDays.value > 0 then Some(nowMs - periodDays.value * DayMs) else None
  }

  /** A row of the account inside the period; a row without a timestamp is always inside. */
  function InWindow(accountId: string, cutoff: Option<int>): PostRow -> bool
  {
    (r: PostRow) => r.accountId == accountId && (cutoff.None? || r.timestamp.None? || r.timestamp.value.ms >= cutoff.value)
  }

  function AddMetrics(a: Metrics, b: Metrics): Metrics
  {
    Metrics(a.views + b.views, a.likes + b.likes, a.replies + b.replies,
            a.reposts + b.reposts, a.quotes + b.quotes, a.shares + b.shares)
  }

  function SumMetrics(rows: seq<PostRow>): Metrics
  {
    if |rows| == 0 then ZeroMetrics else AddMetrics(SumMetrics(rows[..|rows| - 1]), rows[|rows| - 1].metrics)
  }

  /** Totals add up over concatenation: the summary does not depend on how rows are grouped. */
  lemma {:induction false} SumMetricsConcat(a: seq<PostRow>, b: seq<PostRow>)
    ensures SumMetrics(a + b) == AddMetrics(SumMetrics(a), SumMetrics(b))
    decreases |b|
  {
    if |b| == 0 {
      assert a + b == a;
    } else {
      assert (a + b)[..|a + b| - 1] == a + b[..|b| - 1];
      assert (a + b)[|a + b| - 1] == b[|b| - 1];
      SumMetricsConcat(a, b[..|b| - 1]);
    }
  }

  function ErKey(r: PostRow): int
  {
    r.erCenti
  }

  /** The selected rows and their summary, the rate taken over the summed counts. */
  function ViewOf(selected: seq<PostRow>): AnalyticsView
  {
    var totals := SumMetrics(selected);
    AnalyticsView(SortDesc(selected, ErKey),
                  Some(Summary(|selected|, totals, if |selected| > 0 && totals.views > 0 then ErCenti(totals) else 0)))
  }

  /** The loop of `getAnalyticsData`: the rows kept, in sheet order, and their totals. */
  method CollectWindow(data: seq<PostRow>, accountId: string, cutoff: Option<int>)
    returns (posts: seq<PostRow>, totals: Metrics)
    ensures posts == Filter(data, InWindow(accountId, cutoff))
    ensures totals == SumMetrics(posts)
  {
    posts := [];
    totals := ZeroMetrics;
    var i := 0;
    while i < |data|
      invariant 0 <= i <= |data|
      invariant posts == Filter(data[..i], InWindow(accountId, cutoff))
      invariant totals == SumMetrics(posts)
    {
      FilterSnoc(data[..i], data[i], InWindow(accountId, cutoff));
      assert data[..i + 1] == data[..i] + [data[i]];
      var row := data[i];
      if row.accountId == accountId && !(cutoff.Some? && row.timestamp.Some? && row.timestamp.value.ms < cutoff.value) {
        assert (posts + [row])[..|posts|] == posts;
        posts := posts + [row];
        totals := AddMetrics(totals, row.metrics);
      }
      i := i + 1;
    }
    assert data[..i] == data;
  }

  /** `getAnalyticsData` for the active account `accountId` at instant `nowMs`. */
  method GetAnalyticsData(sheet: Sheet<PostRow>, accountId: string, periodDays: Option<nat>, nowMs: int)
    returns (v: AnalyticsView)
    ensures !sheet.present || |sheet.rows| == 0 ==> v == AnalyticsView([], None)
    ensures sheet.present && |sheet.rows| > 0 ==>
      v == ViewOf(Filter(sheet.rows, InWindow(accountId, Cutoff(periodDays, nowMs))))
  {
    if !sheet.present || |sheet.rows| == 0 {
      return AnalyticsView([], None);
    }
    var posts, totals := CollectWindow(sheet.rows, accountId, Cutoff(periodDays, nowMs));
    var avgEr := 0;
    if |posts| > 0 && totals.views > 0 {
      avgEr := ErCenti(totals);
    }
    v := AnalyticsView(SortDesc(posts, ErKey), Some(Summary(|posts|, totals, avgEr)));
  }

  /** The listing holds exactly the account's rows inside the period, highest rate first. */
  lemma ViewIsSelection(rows: seq<PostRow>, accountId: string, cutoff: Option<int>)
    ensures multiset(ViewOf(Filter(rows, InWindow(accountId, cutoff))).posts)
            == multiset(Filter(rows, InWindow(accountId, cutoff)))
    ensures SortedDesc(ViewOf(Filter(rows, InWindow(accountId, cutoff))).posts, ErKey)
    ensures forall p :: p in ViewOf(Filter(rows, InWindow(accountId, cutoff))).posts ==>
      p in rows && p.accountId == accountId
  {
    var sel := Filter(rows, InWindow(accountId, cutoff));
    var posts := ViewOf(sel).posts;
    forall p | p in posts
      ensures p in rows && p.accountId == accountId
    {
      assert p in multiset(posts);
      assert p in multiset(sel);
      FilterMember(rows, InWindow(accountId, cutoff), p);
    }
  }
}
