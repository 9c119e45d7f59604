/**
 * KeywordSearch.js: the query sent to the keyword search endpoint, the
 * style statistics over the posts found, the search over the account's own
 * stored posts, and the result cache and search history sheets.
 */
module KeywordSearch {
  import opened Common
  import opened Store
  import Accounts
  import Analytics
  import Settings

  /**
   * `activeAccount ? activeAccount.accountId : ''`: the account whose cached
   * results and history the sheet operations read and change.
   */
  function SearchAccountId(account: Option<Accounts.Account>): string
  {
    if account.Some? then Accounts.AccountIdOf(account.value) else ""
  }

  // ------------------------------------------------------------ query

  /**
   * The request parameters of `tryThreadsKeywordSearch_`. `limit`, `since`
   * and `until` are what `parseInt` makes of the parameter (None for an
   * absent or non-numeric one); absent strings are "".
   */
  datatype SearchParams = SearchParams(
    searchType: string, searchMode: string, mediaType: string,
    limit: Option<int>, since: Option<int>, until: Option<int>, authorUsername: string)

  /** The query parts the request carries besides `q`, `fields` and the token. */
  datatype Query = Query(
    searchType: string, searchMode: string, limit: int, mediaType: Option<string>,
    since: Option<int>, until: Option<int>, author: Option<string>)

  /** The earliest `since` the endpoint accepts (2023-07-05). */
  const MinSince: int := 1688540400

  const DefaultLimit: int := 25

  /** `Math.min(Math.max(parseInt(limit) || 25, 1), 100)`: a missing, unparsable or zero limit means 25. */
  function SearchLimit(limit: Option<int>): (r: int)
    ensures 1 <= r <= 100
    ensures limit.None? || limit.value == 0 ==> r == DefaultLimit
    ensures limit.Some? && 1 <= limit.value <= 100 ==> r == limit.value
    ensures limit.Some? && limit.value < 0 ==> r == 1
    ensures limit.Some? && limit.value > 100 ==> r == 100
  {
    Clamp(1, 100, if limit.Some? && limit.value != 0 then limit.value else DefaultLimit)
  }

  /**
   * The query parts `tryThreadsKeywordSearch_` assembles: a media type other
   * than 'ALL', a `since` no earlier than `MinSince`, a non-zero `until` and
   * the author without one leading '@'.
   */
  function BuildQuery(p: SearchParams): (q: Query)
    ensures 1 <= q.limit <= 100
    ensures q.since.Some? <==> p.since.Some? && p.since.value >= MinSince
    ensures q.since.Some? ==> q.since == p.since
    ensures q.until.Some? <==> p.until.Some? && p.until.value != 0
    ensures q.mediaType.Some? <==> p.mediaType != "" && p.mediaType != "ALL"
    ensures q.author.Some? <==> p.authorUsername != ""
    ensures forall name :: p.authorUsername == "@" + name ==> q.author == Some(name)
    ensures p.authorUsername != "" && p.authorUsername[0] != '@' ==> q.author == Some(p.authorUsername)
  {
    Query(OrDefault(p.searchType, "TOP"), OrDefault(p.searchMode, "KEYWORD"), SearchLimit(p.limit),
          if p.mediaType != "" && p.mediaType != "ALL" then Some(p.mediaType) else None,
          if p.since.Some? && p.since.value != 0 && p.since.value >= MinSince then p.since else None,
          if p.until.Some? && p.until.value != 0 then p.until else None,
          if p.authorUsername != "" then Some(StripAt(p.authorUsername)) else None)
  }

  // ------------------------------------------------------------ found posts

  /** An hour of the day, as `getUTCHours` returns it. */
  type HourOfDay = h: int | 0 <= h < 24

  /**
   * A post of the search reply after the defaults of the mapping
   * (`post.text || ''`, `post.media_type || 'TEXT'`, ...). `utcHour` is
   * `new Date(timestamp).getUTCHours()`, None when the stamp does not parse.
   */
  datatype FoundPost = FoundPost(
    postId: string, text: string, mediaType: string, permalink: string, timestamp: string,
    utcHour: Option<HourOfDay>, username: string, hasReplies: bool, isQuotePost: bool,
    isReply: bool, topicTag: string)

  // ------------------------------------------------------------ counters

  /**
   * A JavaScript object used as a counter (`m[k] = (m[k] || 0) + 1`): the
   * counts, and the keys in the order they were first set, which is the
   * order `Object.keys` lists them in.
   */
  datatype Counter = Counter(order: seq<string>, counts: map<string, nat>)

  ghost predicate WellFormed(c: Counter)
  {
    && (forall k :: k in c.counts <==> k in c.order)
    && (forall i, j :: 0 <= i < j < |c.order| ==> c.order[i] != c.order[j])
  }

  function Bump(c: Counter, k: string): Counter
  {
    if k in c.counts then Counter(c.order, c.counts[k := c.counts[k] + 1])
    else Counter(c.order + [k], c.counts[k := 1])
  }

  /** The counter after counting `keys` in order. */
  function Tally(keys: seq<string>): Counter
  {
    if |keys| == 0 then Counter([], map[])
    else Bump(Tally(keys[..|keys| - 1]), keys[|keys| - 1])
  }

  /** The key order lists each counted key once. */
  lemma {:induction false} TallyWellFormed(keys: seq<string>)
    ensures WellFormed(Tally(keys))
  {
    if |keys| > 0 {
      var c := Tally(keys[..|keys| - 1]);
      var k := keys[|keys| - 1];
      TallyWellFormed(keys[..|keys| - 1]);
      assert k !in c.counts ==> forall i :: 0 <= i < |c.order| ==> c.order[i] != k;
    }
  }

  function Is(k: string): string -> bool
  {
    (x: string) => x == k
  }

  lemma TallySnoc(keys: seq<string>, k: string)
    ensures Tally(keys + [k]) == Bump(Tally(keys), k)
  {
    assert (keys + [k])[..|keys|] == keys;
  }

  /** Read as a dictionary, the counter gives each key the number of its occurrences. */
  lemma {:induction false} TallyCounts(keys: seq<string>, k: string)
    ensures k in Tally(keys).counts <==> k in keys
    ensures k in Tally(keys).counts ==> Tally(keys).counts[k] == Count(keys, Is(k))
  {
    if |keys| > 0 {
      var init := keys[..|keys| - 1];
      var last := keys[|keys| - 1];
      assert keys == init + [last];
      TallyCounts(init, k);
      FilterSnoc(init, last, Is(k));
      assert k in keys <==> k in init || k == last;
      if k in init {
        var i :| 0 <= i < |init| && init[i] == k;
        FilterContains(init, Is(k), i);
      } else {
        FilterNone(init, Is(k));
      }
    }
  }

  /** One entry of `topAuthors` (and of any counter listed in key order). */
  datatype Entry = Entry(key: string, count: nat)

  /** The counter's entries in key order. */
  function Entries(c: Counter): (es: seq<Entry>)
    ensures |es| == |c.order|
  {
    seq(|c.order|, i requires 0 <= i < |c.order| =>
      Entry(c.order[i], if c.order[i] in c.counts then c.counts[c.order[i]] else 0))
  }

  function Total(es: seq<Entry>): nat
  {
    if |es| == 0 then 0 else Total(es[..|es| - 1]) + es[|es| - 1].count
  }

  lemma {:induction false} TotalConcat(a: seq<Entry>, b: seq<Entry>)
    ensures Total(a + b) == Total(a) + Total(b)
    decreases |b|
  {
    if |b| == 0 {
      assert a + b == a;
    } else {
      assert (a + b)[..|a + b| - 1] == a + b[..|b| - 1];
      TotalConcat(a, b[..|b| - 1]);
    }
  }

  /** Replacing one entry changes the total by the difference of the counts. */
  lemma TotalUpdate(es: seq<Entry>, p: nat, e: Entry)
    requires p < |es|
    ensures Total(es[p := e]) + es[p].count == Total(es) + e.count
  {
    assert es == es[..p] + [es[p]] + es[p + 1..];
    assert es[p := e] == es[..p] + [e] + es[p + 1..];
    TotalConcat(es[..p] + [es[p]], es[p + 1..]);
    TotalConcat(es[..p], [es[p]]);
    TotalConcat(es[..p] + [e], es[p + 1..]);
    TotalConcat(es[..p], [e]);
    assert Total([es[p]]) == es[p].count by { assert [es[p]][..0] == []; }
    assert Total([e]) == e.count by { assert [e][..0] == []; }
  }

  lemma BumpExistingEntries(c: Counter, k: string)
    requires WellFormed(c) && k in c.counts
    ensures WellFormed(Bump(c, k))
    ensures Total(Entries(Bump(c, k))) == Total(Entries(c)) + 1
  {
    var p :| 0 <= p < |c.order| && c.order[p] == k;
    var es := Entries(c);
    assert Entries(Bump(c, k)) == es[p := Entry(k, c.counts[k] + 1)];
    TotalUpdate(es, p, Entry(k, c.counts[k] + 1));
  }

  lemma BumpNewEntries(c: Counter, k: string)
    requires WellFormed(c) && k !in c.counts
    ensures WellFormed(Bump(c, k))
    ensures Total(Entries(Bump(c, k))) == Total(Entries(c)) + 1
  {
    assert forall i :: 0 <= i < |c.order| ==> c.order[i] != k;
    assert Entries(Bump(c, k)) == Entries(c) + [Entry(k, 1)];
    TotalConcat(Entries(c), [Entry(k, 1)]);
    assert Total([Entry(k, 1)]) == 1 by { assert [Entry(k, 1)][..0] == []; }
  }

  lemma BumpEntries(c: Counter, k: string)
    requires WellFormed(c)
    ensures WellFormed(Bump(c, k))
    ensures Total(Entries(Bump(c, k))) == Total(Entries(c)) + 1
  {
    if k in c.counts {
      BumpExistingEntries(c, k);
    } else {
      BumpNewEntries(c, k);
    }
  }

  /** The counts add up to the number of keys counted. */
  lemma {:induction false} TallyTotal(keys: seq<string>)
    ensures Total(Entries(Tally(keys))) == |keys|
  {
    if |keys| > 0 {
      var init := keys[..|keys| - 1];
      TallyTotal(init);
      TallyWellFormed(init);
      BumpEntries(Tally(init), keys[|keys| - 1]);
    }
  }

  lemma TotalSingle(x: Entry)
    ensures Total([x]) == x.count
  {
    assert [x][..0] == [];
  }

  lemma TotalThree(l: seq<Entry>, x: Entry, r: seq<Entry>)
    ensures Total(l + [x] + r) == Total(l + r) + x.count
  {
    TotalConcat(l + [x], r);
    TotalConcat(l, [x]);
    TotalConcat(l, r);
    TotalSingle(x);
  }

  /** Taking one entry out lowers the total by its count. */
  lemma TotalRemove(b: seq<Entry>, j: nat)
    requires j < |b|
    ensures Total(b) == Total(b[..j] + b[j + 1..]) + b[j].count
  {
    var l, x, r := b[..j], b[j], b[j + 1..];
    assert l + [x] == b[..j + 1];
    assert b[..j + 1] + r == b;
    TotalThree(l, x, r);
  }

  /** Moving entries around keeps their total. */
  lemma {:induction false} TotalPermutation(a: seq<Entry>, b: seq<Entry>)
    requires multiset(a) == multiset(b)
    ensures Total(a) == Total(b)
    decreases |a|
  {
    if |a| > 0 {
      var x := a[|a| - 1];
      var a' := a[..|a| - 1];
      assert Total(a) == Total(a') + x.count;
      assert a == a' + [x];
      assert x in multiset(b);
      var j :| 0 <= j < |b| && b[j] == x;
      var b' := b[..j] + b[j + 1..];
      assert multiset(b') == multiset(b) - multiset{x} by {
        assert b == b[..j] + [x] + b[j + 1..];
      }
      TotalPermutation(a', b');
      TotalRemove(b, j);
    } else {
      assert |b| == |multiset(b)| == 0;
    }
  }

  lemma TotalTake(es: seq<Entry>, n: nat)
    ensures Total(Take(es, n)) <= Total(es)
  {
    var t := Take(es, n);
    assert es == t + es[|t|..];
    TotalConcat(t, es[|t|..]);
  }

  // ------------------------------------------------------------ style analysis

  /** `{short, medium, long, verylong}`: texts of at most 50, 150, 300 characters, and longer. */
  datatype LengthBuckets = LengthBuckets(short: nat, medium: nat, long: nat, veryLong: nat)

  /** The result of `analyzePostStyles_`; the empty objects of an empty input are None / []. */
  datatype StyleAnalysis = StyleAnalysis(
    totalPosts: nat, media: seq<Entry>, avgTextLength: int, buckets: Option<LengthBuckets>,
    hours: seq<nat>, unparsedHours: nat, topAuthors: seq<Entry>, replyRate: int, quoteRate: int)

  /** The media type each post is counted under (`p.mediaType || 'TEXT'`). */
  function MediaKeys(posts: seq<FoundPost>): (keys: seq<string>)
    ensures |keys| == |posts|
  {
    if |posts| == 0 then [] else MediaKeys(posts[..|posts| - 1]) + [OrDefault(posts[|posts| - 1].mediaType, "TEXT")]
  }

  /** The usernames of the posts that have one, in order. */
  function Authors(posts: seq<FoundPost>): (keys: seq<string>)
    ensures |keys| <= |posts|
  {
    if |posts| == 0 then []
    else
      var p := posts[|posts| - 1];
      Authors(posts[..|posts| - 1]) + (if p.username != "" then [p.username] else [])
  }

  function Bucketed(b: LengthBuckets, len: nat): LengthBuckets
  {
    if len <= 50 then b.(short := b.short + 1)
    else if len <= 150 then b.(medium := b.medium + 1)
    else if len <= 300 then b.(long := b.long + 1)
    else b.(veryLong := b.veryLong + 1)
  }

  /** The text statistics: total characters, posts with text, and the length buckets. */
  datatype TextStats = TextStats(chars: nat, textPosts: nat, buckets: LengthBuckets)

  function TextStatsOf(posts: seq<FoundPost>): TextStats
  {
    if |posts| == 0 then TextStats(0, 0, LengthBuckets(0, 0, 0, 0))
    else
      var s := TextStatsOf(posts[..|posts| - 1]);
      var p := posts[|posts| - 1];
      if p.text != "" then TextStats(s.chars + |p.text|, s.textPosts + 1, Bucketed(s.buckets, |p.text|))
      else s
  }

  predicate HasText(p: FoundPost)
  {
    p.text != ""
  }

  function HasTextFn(): FoundPost -> bool
  {
    (p: FoundPost) => HasText(p)
  }

  /** Every post with text falls in exactly one bucket; posts without text in none. */
  lemma {:induction false} BucketsCoverTexts(posts: seq<FoundPost>)
    ensures var s := TextStatsOf(posts);
      s.buckets.short + s.buckets.medium + s.buckets.long + s.buckets.veryLong == s.textPosts
    ensures TextStatsOf(posts).textPosts == Count(posts, HasTextFn())
  {
    if |posts| > 0 {
      var init := posts[..|posts| - 1];
      BucketsCoverTexts(init);
      assert posts == init + [posts[|posts| - 1]];
      FilterSnoc(init, posts[|posts| - 1], HasTextFn());
    }
  }

  /** The JST hour bucket of a UTC hour. */
  function JstHour(h: HourOfDay): HourOfDay
  {
    (h + 9) % 24
  }

  /**
   * The hour distribution: 24 buckets, and the posts whose stamp did not
   * parse (`hourDist[NaN]`, which the script creates under the key "NaN").
   */
  datatype HourStats = HourStats(hours: seq<nat>, unparsed: nat)

  function HourStatsOf(posts: seq<FoundPost>): (s: HourStats)
    ensures |s.hours| == 24
  {
    if |posts| == 0 then HourStats(seq(24, _ => 0), 0)
    else
      var s := HourStatsOf(posts[..|posts| - 1]);
      var p := posts[|posts| - 1];
      if p.timestamp == "" then s
      else if p.utcHour.None? then s.(unparsed := s.unparsed + 1)
      else
        var h := JstHour(p.utcHour.value);
        s.(hours := s.hours[h := s.hours[h] + 1])
  }

  /** A post counted in bucket `h`. */
  function InHour(h: HourOfDay): FoundPost -> bool
  {
    (p: FoundPost) => p.timestamp != "" && p.utcHour.Some? && JstHour(p.utcHour.value) == h
  }

  /** Bucket `h` counts exactly the posts whose stamp falls in JST hour `h`. */
  lemma {:induction false} HourBucketsCount(posts: seq<FoundPost>, h: HourOfDay)
    ensures HourStatsOf(posts).hours[h] == Count(posts, InHour(h))
  {
    if |posts| > 0 {
      var init := posts[..|posts| - 1];
      HourBucketsCount(init, h);
      assert posts == init + [posts[|posts| - 1]];
      FilterSnoc(init, posts[|posts| - 1], InHour(h));
    }
  }

  function ReplyFn(): FoundPost -> bool
  {
    (p: FoundPost) => p.isReply
  }

  function QuoteFn(): FoundPost -> bool
  {
    (p: FoundPost) => p.isQuotePost
  }

  /** `Math.round((count / total) * 100)`, 0 for no posts. */
  function Rate(count: nat, total: nat): (r: int)
    ensures count <= total ==> 0 <= r <= 100
    ensures total > 0 && count == total ==> r == 100
  {
    if total > 0 then
      var x := count as real / total as real * 100.0;
      assert count <= total ==> x <= 100.0 by {
        if count <= total {
          Analytics.MulMono(count as real / total as real, 1.0, 100.0);
        }
      }
      assert count == total ==> x == 100.0;
      Round(x)
    else 0
  }

  function CountKey(e: Entry): int
  {
    e.count
  }

  /** `topAuthors`: the author entries by count, highest first, at most ten. */
  function TopAuthors(posts: seq<FoundPost>): seq<Entry>
  {
    Take(SortDesc(Entries(Tally(Authors(posts))), CountKey), 10)
  }

  function AverageLength(t: TextStats): int
  {
    if t.textPosts > 0 then Round(t.chars as real / t.textPosts as real) else 0
  }

  /** `analyzePostStyles_`. */
  function StylesOf(posts: seq<FoundPost>): StyleAnalysis
  {
    if |posts| == 0 then StyleAnalysis(0, [], 0, None, [], 0, [], 0, 0)
    else
      var t := TextStatsOf(posts);
      var h := HourStatsOf(posts);
      StyleAnalysis(
        |posts|, Entries(Tally(MediaKeys(posts))), AverageLength(t), Some(t.buckets), h.hours, h.unparsed,
        TopAuthors(posts), Rate(Count(posts, ReplyFn()), |posts|), Rate(Count(posts, QuoteFn()), |posts|))
  }

  /** The top authors are sorted, at most ten, and account for at most one post each. */
  lemma TopAuthorsBounded(posts: seq<FoundPost>)
    ensures |TopAuthors(posts)| <= 10
    ensures SortedDesc(TopAuthors(posts), CountKey)
    ensures Total(TopAuthors(posts)) <= |posts|
  {
    var authors := Entries(Tally(Authors(posts)));
    var sorted := SortDesc(authors, CountKey);
    TallyTotal(Authors(posts));
    TotalPermutation(sorted, authors);
    TotalTake(sorted, 10);
    var top := TopAuthors(posts);
    assert forall i :: 0 <= i < |top| ==> top[i] == sorted[i];
  }

  /** What the analysis promises about any non-empty input. */
  lemma StylesFacts(posts: seq<FoundPost>)
    requires |posts| > 0
    ensures var r := StylesOf(posts);
      && r.totalPosts == |posts|
      && Total(r.media) == |posts|
      && r.buckets.Some?
      && r.buckets.value.short + r.buckets.value.medium + r.buckets.value.long + r.buckets.value.veryLong
         == Count(posts, HasTextFn())
      && |r.hours| == 24
      && (forall h: HourOfDay :: r.hours[h] == Count(posts, InHour(h)))
      && |r.topAuthors| <= 10
      && SortedDesc(r.topAuthors, CountKey)
      && Total(r.topAuthors) <= |posts|
      && 0 <= r.replyRate <= 100 && 0 <= r.quoteRate <= 100
  {
    TallyTotal(MediaKeys(posts));
    BucketsCoverTexts(posts);
    forall h: HourOfDay ensures HourStatsOf(posts).hours[h] == Count(posts, InHour(h)) {
      HourBucketsCount(posts, h);
    }
    TopAuthorsBounded(posts);
  }

  /** Every entry of a well-formed counter is one of its keys with that key's count. */
  lemma EntriesMember(c: Counter, e: Entry)
    requires WellFormed(c) && e in Entries(c)
    ensures e.key in c.counts && e.count == c.counts[e.key]
  {
  }

  /** An entry among the first ten of the sorted counter is a key counted with its number of occurrences. */
  lemma TopEntryCount(keys: seq<string>, e: Entry)
    requires e in Take(SortDesc(Entries(Tally(keys)), CountKey), 10)
    ensures e.key in keys && e.count == Count(keys, Is(e.key))
  {
    var es := Entries(Tally(keys));
    var sorted := SortDesc(es, CountKey);
    assert e in sorted;
    assert e in multiset(es) by { assert e in multiset(sorted); }
    TallyWellFormed(keys);
    EntriesMember(Tally(keys), e);
    TallyCounts(keys, e.key);
  }

  /** Each top author is a poster of the input, listed with the number of their posts. */
  lemma TopAuthorCount(posts: seq<FoundPost>, e: Entry)
    requires e in TopAuthors(posts)
    ensures e.key in Authors(posts) && e.count == Count(Authors(posts), Is(e.key))
  {
    TopEntryCount(Authors(posts), e);
  }

  lemma MediaKeysSnoc(posts: seq<FoundPost>, i: nat)
    requires i < |posts|
    ensures MediaKeys(posts[..i + 1]) == MediaKeys(posts[..i]) + [OrDefault(posts[i].mediaType, "TEXT")]
  {
    assert posts[..i + 1][..i] == posts[..i];
  }

  lemma AuthorsSnoc(posts: seq<FoundPost>, i: nat)
    requires i < |posts|
    ensures Authors(posts[..i + 1]) == Authors(posts[..i]) + (if posts[i].username != "" then [posts[i].username] else [])
  {
    assert posts[..i + 1][..i] == posts[..i];
  }

  lemma AuthorStep(posts: seq<FoundPost>, i: nat, c: Counter)
    requires i < |posts| && c == Tally(Authors(posts[..i]))
    ensures posts[i].username != "" ==> Tally(Authors(posts[..i + 1])) == Bump(c, posts[i].username)
    ensures posts[i].username == "" ==> Tally(Authors(posts[..i + 1])) == c
  {
    AuthorsSnoc(posts, i);
    if posts[i].username != "" {
      TallySnoc(Authors(posts[..i]), posts[i].username);
    } else {
      assert Authors(posts[..i + 1]) == Authors(posts[..i]);
    }
  }

  /** The media loop (`mediaCount[p.mediaType || 'TEXT']++`). */
  method CountMedia(posts: seq<FoundPost>) returns (c: Counter)
    ensures c == Tally(MediaKeys(posts))
  {
    c := Counter([], map[]);
    var i := 0;
    while i < |posts|
      invariant 0 <= i <= |posts|
      invariant c == Tally(MediaKeys(posts[..i]))
    {
      var k := OrDefault(posts[i].mediaType, "TEXT");
      MediaKeysSnoc(posts, i);
      TallySnoc(MediaKeys(posts[..i]), k);
      c := Bump(c, k);
      i := i + 1;
    }
    assert posts[..i] == posts;
  }

  /** The author loop (`if (p.username) authorMap[p.username]++`). */
  method CountAuthors(posts: seq<FoundPost>) returns (c: Counter)
    ensures c == Tally(Authors(posts))
  {
    c := Counter([], map[]);
    var i := 0;
    while i < |posts|
      invariant 0 <= i <= |posts|
      invariant c == Tally(Authors(posts[..i]))
    {
      AuthorStep(posts, i, c);
      if posts[i].username != "" {
        c := Bump(c, posts[i].username);
      }
      i := i + 1;
    }
    assert posts[..i] == posts;
  }

  /** The text-length loop. */
  method MeasureTexts(posts: seq<FoundPost>) returns (t: TextStats)
    ensures t == TextStatsOf(posts)
  {
    t := TextStats(0, 0, LengthBuckets(0, 0, 0, 0));
    var i := 0;
    while i < |posts|
      invariant 0 <= i <= |posts|
      invariant t == TextStatsOf(posts[..i])
    {
      assert posts[..i + 1][..i] == posts[..i];
      var p := posts[i];
      if p.text != "" {
        var len := |p.text|;
        var b := t.buckets;
        if len <= 50 { b := b.(short := b.short + 1); }
        else if len <= 150 { b := b.(medium := b.medium + 1); }
        else if len <= 300 { b := b.(long := b.long + 1); }
        else { b := b.(veryLong := b.veryLong + 1); }
        t := TextStats(t.chars + len, t.textPosts + 1, b);
      }
      i := i + 1;
    }
    assert posts[..i] == posts;
  }

  /** The hour loop over 24 zero-initialised buckets. */
  method CountHours(posts: seq<FoundPost>) returns (s: HourStats)
    ensures s == HourStatsOf(posts)
  {
    s := HourStats(seq(24, _ => 0), 0);
    var i := 0;
    while i < |posts|
      invariant 0 <= i <= |posts|
      invariant s == HourStatsOf(posts[..i])
    {
      assert posts[..i + 1][..i] == posts[..i];
      var p := posts[i];
      if p.timestamp != "" {
        if p.utcHour.Some? {
          var h := JstHour(p.utcHour.value);
          s := s.(hours := s.hours[h := s.hours[h] + 1]);
        } else {
          s := s.(unparsed := s.unparsed + 1);
        }
      }
      i := i + 1;
    }
    assert posts[..i] == posts;
  }

  /** The reply and quote loop. */
  method CountFlags(posts: seq<FoundPost>) returns (replies: nat, quotes: nat)
    ensures replies == Count(posts, ReplyFn()) && quotes == Count(posts, QuoteFn())
  {
    replies, quotes := 0, 0;
    var i := 0;
    while i < |posts|
      invariant 0 <= i <= |posts|
      invariant replies == Count(posts[..i], ReplyFn()) && quotes == Count(posts[..i], QuoteFn())
    {
      assert posts[..i + 1] == posts[..i] + [posts[i]];
      FilterSnoc(posts[..i], posts[i], ReplyFn());
      FilterSnoc(posts[..i], posts[i], QuoteFn());
      if posts[i].isReply { replies := replies + 1; }
      if posts[i].isQuotePost { quotes := quotes + 1; }
      i := i + 1;
    }
    assert posts[..i] == posts;
  }

  /** `analyzePostStyles_`: the statistics of `StylesOf`, of which `StylesFacts` states the bounds. */
  method AnalyzeStyles(posts: seq<FoundPost>) returns (r: StyleAnalysis)
    ensures r == StylesOf(posts)
    ensures |posts| == 0 ==> r.totalPosts == 0 && r.media == [] && r.hours == [] && r.topAuthors == []
                             && r.buckets.None? && r.replyRate == 0 && r.quoteRate == 0
  {
    if |posts| == 0 {
      return StyleAnalysis(0, [], 0, None, [], 0, [], 0, 0);
    }
    var media := CountMedia(posts);
    var t := MeasureTexts(posts);
    var h := CountHours(posts);
    var authors := CountAuthors(posts);
    var top := Take(SortDesc(Entries(authors), CountKey), 10);
    var avg := AverageLength(t);
    var replies, quotes := CountFlags(posts);
    r := StyleAnalysis(|posts|, Entries(media), avg, Some(t.buckets), h.hours, h.unparsed, top,
                       Rate(replies, |posts|), Rate(quotes, |posts|));
  }

  // ------------------------------------------------------------ own posts

  /** The own-post search reads a post when its text or topic tag holds the keyword, ignoring case. */
  predicate MentionsKeyword(r: PostRow, kw: string)
  {
    Contains(ToLower(r.text), kw) || Contains(ToLower(r.topicTag), kw)
  }

  function OwnMatch(accountId: string, kw: string): PostRow -> bool
  {
    (r: PostRow) => r.accountId == accountId && MentionsKeyword(r, kw)
  }

  /** A matching row as the search lists it (`media_type || 'TEXT'`). */
  function Shown(r: PostRow): PostRow
  {
    r.(mediaType := OrDefault(r.mediaType, "TEXT"))
  }

  function ShownAll(rows: seq<PostRow>): (r: seq<PostRow>)
    ensures |r| == |rows|
    ensures forall i :: 0 <= i < |rows| ==> r[i] == Shown(rows[i])
  {
    seq(|rows|, i requires 0 <= i < |rows| => Shown(rows[i]))
  }

  /**
   * `getMyPostsByKeyword_` over the data rows of the analytics sheet (none
   * when the sheet is missing): the account's posts that mention the
   * keyword, highest engagement rate first.
   */
  function MyPostsByKeyword(rows: seq<PostRow>, accountId: string, keyword: string): seq<PostRow>
  {
    SortDesc(ShownAll(Filter(rows, OwnMatch(accountId, ToLower(keyword)))), Analytics.ErKey)
  }

  /**
   * A post is listed exactly when it is a row of the account whose text or
   * tag contains the keyword in any letter case.
   */
  lemma MyPostsListed(rows: seq<PostRow>, accountId: string, keyword: string, x: PostRow)
    ensures x in MyPostsByKeyword(rows, accountId, keyword) <==>
      exists i :: 0 <= i < |rows| && rows[i].accountId == accountId
                  && MentionsKeyword(rows[i], ToLower(keyword)) && x == Shown(rows[i])
  {
    if x in MyPostsByKeyword(rows, accountId, keyword) {
      ListedIsMatch(rows, accountId, keyword, x);
    }
    if exists i :: 0 <= i < |rows| && rows[i].accountId == accountId
                   && MentionsKeyword(rows[i], ToLower(keyword)) && x == Shown(rows[i]) {
      var i :| 0 <= i < |rows| && rows[i].accountId == accountId
               && MentionsKeyword(rows[i], ToLower(keyword)) && x == Shown(rows[i]);
      MatchIsListed(rows, accountId, keyword, i);
    }
  }

  lemma ListedIsMatch(rows: seq<PostRow>, accountId: string, keyword: string, x: PostRow)
    requires x in MyPostsByKeyword(rows, accountId, keyword)
    ensures exists i :: 0 <= i < |rows| && rows[i].accountId == accountId
                        && MentionsKeyword(rows[i], ToLower(keyword)) && x == Shown(rows[i])
  {
    var keep := OwnMatch(accountId, ToLower(keyword));
    var matched := Filter(rows, keep);
    var shown := ShownAll(matched);
    SortDescMember(shown, Analytics.ErKey, x);
    var j :| 0 <= j < |shown| && shown[j] == x;
    FilterMember(rows, keep, matched[j]);
    var i :| 0 <= i < |rows| && rows[i] == matched[j];
    assert x == Shown(rows[i]);
  }

  lemma MatchIsListed(rows: seq<PostRow>, accountId: string, keyword: string, i: nat)
    requires i < |rows| && rows[i].accountId == accountId && MentionsKeyword(rows[i], ToLower(keyword))
    ensures Shown(rows[i]) in MyPostsByKeyword(rows, accountId, keyword)
  {
    var keep := OwnMatch(accountId, ToLower(keyword));
    var matched := Filter(rows, keep);
    var shown := ShownAll(matched);
    FilterContains(rows, keep, i);
    var j :| 0 <= j < |matched| && matched[j] == rows[i];
    assert shown[j] == Shown(rows[i]);
    SortDescMember(shown, Analytics.ErKey, Shown(rows[i]));
  }

  /** The list is sorted by engagement rate, highest first, and holds one post per matching row. */
  lemma MyPostsSorted(rows: seq<PostRow>, accountId: string, keyword: string)
    ensures SortedDesc(MyPostsByKeyword(rows, accountId, keyword), Analytics.ErKey)
    ensures |MyPostsByKeyword(rows, accountId, keyword)| == Count(rows, OwnMatch(accountId, ToLower(keyword)))
  {
  }

  // ------------------------------------------------------------ saved results

  /** A cached row of one account's search for one keyword. */
  function IsSearch(accountId: string, keyword: string): KeywordRow -> bool
  {
    (r: KeywordRow) => r.accountId == accountId && r.keyword == keyword
  }

  function OtherSearch(accountId: string, keyword: string): KeywordRow -> bool
  {
    (r: KeywordRow) => !(r.accountId == accountId && r.keyword == keyword)
  }

  /** The row `storeKeywordSearchResults_` writes for a post (text cut to 500 characters). */
  function ResultRow(accountId: string, keyword: string, searchType: string, searchMode: string,
                     post: FoundPost, now: int): KeywordRow
  {
    KeywordRow(accountId, keyword, searchMode, searchType, post.postId, post.username,
               Take(post.text, 500), post.mediaType, post.permalink, post.timestamp,
               post.hasReplies, post.isQuotePost, post.isReply, now)
  }

  function ResultRows(accountId: string, keyword: string, searchType: string, searchMode: string,
                      posts: seq<FoundPost>, now: int): (rs: seq<KeywordRow>)
    ensures |rs| == |posts|
    ensures forall i :: 0 <= i < |posts| ==> rs[i] == ResultRow(accountId, keyword, searchType, searchMode, posts[i], now)
  {
    seq(|posts|, i requires 0 <= i < |posts| => ResultRow(accountId, keyword, searchType, searchMode, posts[i], now))
  }

  /**
   * `storeKeywordSearchResults_`: drop the account's earlier rows for the
   * keyword from the bottom up, then append one row per post found.
   */
  method StoreResults(sheet: Sheet<KeywordRow>, accountId: string, keyword: string, searchType: string,
                      searchMode: string, posts: seq<FoundPost>, now: int)
    modifies sheet
    ensures sheet.headers == old(sheet.headers) && sheet.present == old(sheet.present)
    ensures sheet.rows == if sheet.present
      then Filter(old(sheet.rows), OtherSearch(accountId, keyword))
           + ResultRows(accountId, keyword, searchType, searchMode, posts, now)
      else old(sheet.rows)
  {
    if !sheet.present {
      return;
    }
    var _ := DeleteRowsBottomUp(sheet, OtherSearch(accountId, keyword));
    var rows := ResultRows(accountId, keyword, searchType, searchMode, posts, now);
    if |rows| > 0 {
      sheet.AppendRows(rows);
    }
  }

  /** A cached post as `getSavedSearchResults` returns it. */
  datatype SavedPost = SavedPost(
    postId: string, username: string, text: string, mediaType: string, permalink: string,
    timestamp: string, hasReplies: bool, isQuotePost: bool, isReply: bool, fetchedAt: int)

  function Saved(r: KeywordRow): SavedPost
  {
    SavedPost(r.postId, r.username, r.text, r.mediaType, r.permalink, r.timestamp,
              r.hasReplies, r.isQuotePost, r.isReply, r.fetchedAt)
  }

  function SavedAll(rows: seq<KeywordRow>): (r: seq<SavedPost>)
    ensures |r| == |rows|
    ensures forall i :: 0 <= i < |rows| ==> r[i] == Saved(rows[i])
  {
    seq(|rows|, i requires 0 <= i < |rows| => Saved(rows[i]))
  }

  /** `getSavedSearchResults`: the cached posts of the account for the trimmed keyword, in sheet order. */
  function SavedResults(rows: seq<KeywordRow>, accountId: string, keyword: string): seq<SavedPost>
  {
    SavedAll(Filter(rows, IsSearch(accountId, Trim(keyword))))
  }

  /** The post as it reads back from the cache. */
  function Cached(post: FoundPost, now: int): SavedPost
  {
    SavedPost(post.postId, post.username, Take(post.text, 500), post.mediaType, post.permalink,
              post.timestamp, post.hasReplies, post.isQuotePost, post.isReply, now)
  }

  lemma FilterOthersNone(rows: seq<KeywordRow>, accountId: string, keyword: string)
    ensures Filter(Filter(rows, OtherSearch(accountId, keyword)), IsSearch(accountId, keyword)) == []
  {
    var kept := Filter(rows, OtherSearch(accountId, keyword));
    forall i | 0 <= i < |kept| ensures !IsSearch(accountId, keyword)(kept[i]) {
      FilterMember(rows, OtherSearch(accountId, keyword), kept[i]);
    }
    FilterNone(kept, IsSearch(accountId, keyword));
  }

  function CachedAll(posts: seq<FoundPost>, now: int): (r: seq<SavedPost>)
    ensures |r| == |posts|
    ensures forall i :: 0 <= i < |posts| ==> r[i] == Cached(posts[i], now)
  {
    seq(|posts|, i requires 0 <= i < |posts| => Cached(posts[i], now))
  }

  /** The cached rows of a search just stored are exactly the rows appended for it. */
  lemma StoredRowsFound(rows: seq<KeywordRow>, accountId: string, kw: string,
                        searchType: string, searchMode: string, posts: seq<FoundPost>, now: int)
    ensures var added := ResultRows(accountId, kw, searchType, searchMode, posts, now);
      Filter(Filter(rows, OtherSearch(accountId, kw)) + added, IsSearch(accountId, kw)) == added
  {
    var added := ResultRows(accountId, kw, searchType, searchMode, posts, now);
    FilterConcat(Filter(rows, OtherSearch(accountId, kw)), added, IsSearch(accountId, kw));
    FilterOthersNone(rows, accountId, kw);
    FilterAll(added, IsSearch(accountId, kw));
    assert [] + added == added;
  }

  /**
   * Reading the cache back after storing a search gives exactly the posts
   * found, in order, with text cut to 500 characters; a lookup with the
   * keyword as typed (untrimmed) finds them too.
   */
  lemma StoreThenSaved(rows: seq<KeywordRow>, accountId: string, keyword: string,
                       searchType: string, searchMode: string, posts: seq<FoundPost>, now: int)
    ensures var stored := Filter(rows, OtherSearch(accountId, Trim(keyword)))
                          + ResultRows(accountId, Trim(keyword), searchType, searchMode, posts, now);
      SavedResults(stored, accountId, keyword) == CachedAll(posts, now)
  {
    var kw := Trim(keyword);
    TrimIdempotent(keyword);
    assert Trim(kw) == kw;
    StoredRowsFound(rows, accountId, kw, searchType, searchMode, posts, now);
    var added := ResultRows(accountId, kw, searchType, searchMode, posts, now);
    assert SavedAll(added) == CachedAll(posts, now);
  }

  /** Storing one search leaves the cached results of every other account and keyword as they were. */
  lemma StoreKeepsOthers(rows: seq<KeywordRow>, accountId: string, keyword: string, searchType: string,
                         searchMode: string, posts: seq<FoundPost>, now: int, otherAccount: string, otherKeyword: string)
    requires otherAccount != accountId || Trim(otherKeyword) != keyword
    ensures var stored := Filter(rows, OtherSearch(accountId, keyword))
                          + ResultRows(accountId, keyword, searchType, searchMode, posts, now);
      SavedResults(stored, otherAccount, otherKeyword) == SavedResults(rows, otherAccount, otherKeyword)
  {
    var q := IsSearch(otherAccount, Trim(otherKeyword));
    var added := ResultRows(accountId, keyword, searchType, searchMode, posts, now);
    FilterConcat(Filter(rows, OtherSearch(accountId, keyword)), added, q);
    FilterFilterImplied(rows, OtherSearch(accountId, keyword), q);
    FilterNone(added, q);
    assert Filter(rows, q) + [] == Filter(rows, q);
  }

  // ------------------------------------------------------------ history

  /** The history row of one account, keyword and search mode. */
  function IsEntry(accountId: string, keyword: string, searchMode: string): HistoryRow -> bool
  {
    (r: HistoryRow) => r.accountId == accountId && r.keyword == keyword && r.searchMode == searchMode
  }

  function OtherEntry(accountId: string, keyword: string, searchMode: string): HistoryRow -> bool
  {
    (r: HistoryRow) => !(r.accountId == accountId && r.keyword == keyword && r.searchMode == searchMode)
  }

  /**
   * `addSearchHistory_`: delete the earlier rows of the same account,
   * keyword and mode from the bottom up, then append the new one.
   */
  method AddHistory(sheet: Sheet<HistoryRow>, accountId: string, keyword: string, searchMode: string,
                    resultCount: int, now: int)
    modifies sheet
    ensures sheet.headers == old(sheet.headers) && sheet.present == old(sheet.present)
    ensures sheet.rows == if sheet.present
      then Filter(old(sheet.rows), OtherEntry(accountId, keyword, searchMode))
           + [HistoryRow(accountId, keyword, searchMode, resultCount, now)]
      else old(sheet.rows)
  {
    if !sheet.present {
      return;
    }
    var _ := DeleteRowsBottomUp(sheet, OtherEntry(accountId, keyword, searchMode));
    sheet.AppendRows([HistoryRow(accountId, keyword, searchMode, resultCount, now)]);
  }

  /**
   * After adding, the searched triple has exactly one row and every other
   * triple keeps its count: a history with at most one row per triple keeps
   * that property.
   */
  lemma HistoryOnePerSearch(rows: seq<HistoryRow>, accountId: string, keyword: string, searchMode: string,
                            resultCount: int, now: int, a: string, k: string, m: string)
    ensures var added := Filter(rows, OtherEntry(accountId, keyword, searchMode))
                         + [HistoryRow(accountId, keyword, searchMode, resultCount, now)];
      Count(added, IsEntry(a, k, m)) ==
        if a == accountId && k == keyword && m == searchMode then 1 else Count(rows, IsEntry(a, k, m))
  {
    var other := OtherEntry(accountId, keyword, searchMode);
    var q := IsEntry(a, k, m);
    var row := HistoryRow(accountId, keyword, searchMode, resultCount, now);
    FilterSnoc(Filter(rows, other), row, q);
    if a == accountId && k == keyword && m == searchMode {
      var kept := Filter(rows, other);
      forall i | 0 <= i < |kept| ensures !q(kept[i]) {
        FilterMember(rows, other, kept[i]);
      }
      FilterNone(kept, q);
    } else {
      FilterFilterImplied(rows, other, q);
    }
  }

  /** A row of `getSearchHistory` (the account column is dropped). */
  datatype HistoryEntry = HistoryEntry(keyword: string, searchMode: string, resultCount: int, searchedAt: int)

  function ForAccount(accountId: string): HistoryRow -> bool
  {
    (r: HistoryRow) => r.accountId == accountId
  }

  function EntryOf(r: HistoryRow): HistoryEntry
  {
    HistoryEntry(r.keyword, r.searchMode, r.resultCount, r.searchedAt)
  }

  /** The account's history, newest (lowest) row first. */
  function Newest(rows: seq<HistoryRow>, accountId: string): seq<HistoryEntry>
  {
    if |rows| == 0 then []
    else Newest(rows[1..], accountId) + (if rows[0].accountId == accountId then [EntryOf(rows[0])] else [])
  }

  /** `getSearchHistory`: the account's newest 20 searches. */
  function HistoryOf(rows: seq<HistoryRow>, accountId: string): seq<HistoryEntry>
  {
    Take(Newest(rows, accountId), 20)
  }

  lemma {:induction false} NewestSplit(rows: seq<HistoryRow>, accountId: string, i: nat)
    requires i <= |rows|
    ensures Newest(rows, accountId) == Newest(rows[i..], accountId) + Newest(rows[..i], accountId)
  {
    if i > 0 {
      NewestSplit(rows[1..], accountId, i - 1);
      assert rows[1..][i - 1..] == rows[i..];
      assert rows[..i][1..] == rows[1..][..i - 1];
    } else {
      assert rows[..0] == [];
    }
  }

  /** Newest first is the account's rows in reverse sheet order: entry `j` is the `j`-th from the end. */
  lemma {:induction false} NewestReversed(rows: seq<HistoryRow>, accountId: string)
    ensures var own := Filter(rows, ForAccount(accountId));
      && |Newest(rows, accountId)| == |own|
      && forall j :: 0 <= j < |own| ==> Newest(rows, accountId)[j] == EntryOf(own[|own| - 1 - j])
  {
    if |rows| > 0 {
      var rest := rows[1..];
      NewestReversed(rest, accountId);
      assert rows == [rows[0]] + rest;
      FilterCons(rows[0], rest, ForAccount(accountId));
      var own := Filter(rows, ForAccount(accountId));
      var ownRest := Filter(rest, ForAccount(accountId));
      var n := Newest(rows, accountId);
      if rows[0].accountId == accountId {
        assert own == [rows[0]] + ownRest;
        forall j | 0 <= j < |own| ensures n[j] == EntryOf(own[|own| - 1 - j]) {
          if j < |ownRest| {
            assert own[|own| - 1 - j] == ownRest[|ownRest| - 1 - j];
          }
        }
      } else {
        assert own == ownRest;
        assert n == Newest(rest, accountId) + [];
      }
    }
  }

  /** The backward scan of `getSearchHistory`, which stops once 20 entries are collected. */
  method GetSearchHistory(sheet: Sheet<HistoryRow>, accountId: string) returns (history: seq<HistoryEntry>)
    ensures history == HistoryOf(RowsIf(sheet.present, sheet.rows), accountId)
  {
    history := [];
    if !sheet.present {
      return;
    }
    var rows := sheet.rows;
    var i := |rows|;
    while i > 0
      invariant 0 <= i <= |rows|
      invariant history == Newest(rows[i..], accountId)
      invariant |history| < 20
    {
      i := i - 1;
      assert rows[i..][1..] == rows[i + 1..];
      if rows[i].accountId == accountId {
        history := history + [EntryOf(rows[i])];
      }
      if |history| >= 20 {
        NewestSplit(rows, accountId, i);
        return;
      }
    }
    assert rows[0..] == rows;
  }

  /** `clearSearchHistory`: the rows of other accounts, moved up in their order. */
  method ClearHistory(sheet: Sheet<HistoryRow>, accountId: string)
    modifies sheet
    ensures sheet.headers == old(sheet.headers) && sheet.present == old(sheet.present)
    ensures sheet.rows == if sheet.present then Filter(old(sheet.rows), (r: HistoryRow) => r.accountId != accountId)
                          else old(sheet.rows)
  {
    if !sheet.present || |sheet.rows| == 0 {
      return;
    }
    sheet.ReplaceRows(Filter(sheet.rows, (r: HistoryRow) => r.accountId != accountId));
  }

  /** After clearing, the account has no history, and every other account's history is as it was. */
  lemma ClearedHistory(rows: seq<HistoryRow>, accountId: string, other: string)
    ensures HistoryOf(Filter(rows, (r: HistoryRow) => r.accountId != accountId), accountId) == []
    ensures other != accountId ==>
      HistoryOf(Filter(rows, (r: HistoryRow) => r.accountId != accountId), other) == HistoryOf(rows, other)
  {
    var keep := (r: HistoryRow) => r.accountId != accountId;
    var kept := Filter(rows, keep);
    NewestReversed(kept, accountId);
    forall i | 0 <= i < |kept| ensures !ForAccount(accountId)(kept[i]) {
      FilterMember(rows, keep, kept[i]);
    }
    FilterNone(kept, ForAccount(accountId));
    if other != accountId {
      NewestKeepsOthers(rows, keep, other);
    }
  }

  /** Dropping rows that are not the account's leaves its history alone. */
  lemma {:induction false} NewestKeepsOthers(rows: seq<HistoryRow>, keep: HistoryRow -> bool, accountId: string)
    requires forall r: HistoryRow :: r.accountId == accountId ==> keep(r)
    ensures Newest(Filter(rows, keep), accountId) == Newest(rows, accountId)
  {
    if |rows| > 0 {
      NewestKeepsOthers(rows[1..], keep, accountId);
      assert rows == [rows[0]] + rows[1..];
      FilterCons(rows[0], rows[1..], keep);
      var f := Filter(rows, keep);
      if keep(rows[0]) {
        assert f == [rows[0]] + Filter(rows[1..], keep);
        assert f[1..] == Filter(rows[1..], keep);
      } else {
        assert f == [] + Filter(rows[1..], keep);
        assert f == Filter(rows[1..], keep);
        assert Newest(rows, accountId) == Newest(rows[1..], accountId) + [];
      }
    }
  }

  /** A cached row `clearSavedSearchResults` deletes: the account's, for the keyword if one is given. */
  function Cleared(accountId: string, keyword: Option<string>): KeywordRow -> bool
  {
    (r: KeywordRow) => r.accountId == accountId && (keyword.None? || r.keyword == keyword.value)
  }

  function Uncleared(accountId: string, keyword: Option<string>): KeywordRow -> bool
  {
    (r: KeywordRow) => !(r.accountId == accountId && (keyword.None? || r.keyword == keyword.value))
  }

  /** `params.keyword || null`. */
  function ClearKeyword(keyword: string): Option<string>
  {
    if keyword == "" then None else Some(keyword)
  }

  /**
   * `clearSavedSearchResults`: keep the rows not cleared, in their order,
   * and count the others.
   */
  method ClearSaved(sheet: Sheet<KeywordRow>, accountId: string, keyword: string) returns (deletedCount: nat)
    modifies sheet
    ensures sheet.headers == old(sheet.headers) && sheet.present == old(sheet.present)
    ensures sheet.rows == if sheet.present then Filter(old(sheet.rows), Uncleared(accountId, ClearKeyword(keyword)))
                          else old(sheet.rows)
    ensures deletedCount == if sheet.present then Count(old(sheet.rows), Cleared(accountId, ClearKeyword(keyword))) else 0
  {
    deletedCount := 0;
    if !sheet.present || |sheet.rows| == 0 {
      return;
    }
    var keepRows;
    keepRows, deletedCount := PartitionCleared(sheet.rows, accountId, ClearKeyword(keyword));
    sheet.ReplaceRows(keepRows);
  }

  /** The loop of `clearSavedSearchResults` that sorts the rows into kept and deleted. */
  method PartitionCleared(data: seq<KeywordRow>, accountId: string, kw: Option<string>)
    returns (keepRows: seq<KeywordRow>, deletedCount: nat)
    ensures keepRows == Filter(data, Uncleared(accountId, kw))
    ensures deletedCount == Count(data, Cleared(accountId, kw))
  {
    keepRows, deletedCount := [], 0;
    var i := 0;
    while i < |data|
      invariant 0 <= i <= |data|
      invariant keepRows == Filter(data[..i], Uncleared(accountId, kw))
      invariant deletedCount == Count(data[..i], Cleared(accountId, kw))
    {
      assert data[..i + 1] == data[..i] + [data[i]];
      FilterSnoc(data[..i], data[i], Uncleared(accountId, kw));
      FilterSnoc(data[..i], data[i], Cleared(accountId, kw));
      if data[i].accountId == accountId && (kw.None? || data[i].keyword == kw.value) {
        deletedCount := deletedCount + 1;
      } else {
        keepRows := keepRows + [data[i]];
      }
      i := i + 1;
    }
    assert data[..i] == data;
  }

  /** The deleted count and the kept rows make up the whole sheet. */
  lemma {:induction false} ClearedSplit(rows: seq<KeywordRow>, accountId: string, keyword: Option<string>)
    ensures Count(rows, Cleared(accountId, keyword)) + |Filter(rows, Uncleared(accountId, keyword))| == |rows|
  {
    if |rows| > 0 {
      var init := rows[..|rows| - 1];
      ClearedSplit(init, accountId, keyword);
      assert rows == init + [rows[|rows| - 1]];
      FilterSnoc(init, rows[|rows| - 1], Cleared(accountId, keyword));
      FilterSnoc(init, rows[|rows| - 1], Uncleared(accountId, keyword));
    }
  }

  /**
   * After clearing, nothing is saved for the cleared keyword (or for any
   * keyword when none was given).
   */
  lemma ClearedSavedNothing(rows: seq<KeywordRow>, accountId: string, keyword: string, lookup: string)
    requires keyword == "" || Trim(lookup) == keyword
    ensures SavedResults(Filter(rows, Uncleared(accountId, ClearKeyword(keyword))), accountId, lookup) == []
  {
    var kw := ClearKeyword(keyword);
    var keep := Uncleared(accountId, kw);
    var q := IsSearch(accountId, Trim(lookup));
    assert forall r :: q(r) ==> Cleared(accountId, kw)(r);
    var kept := Filter(rows, keep);
    forall i | 0 <= i < |kept| ensures !q(kept[i]) {
      FilterMember(rows, keep, kept[i]);
    }
    FilterNone(kept, q);
  }

  /** Clearing one account's cache leaves the saved results of other accounts untouched. */
  lemma ClearedSavedKeepsOthers(rows: seq<KeywordRow>, accountId: string, keyword: string, lookup: string, other: string)
    requires other != accountId
    ensures SavedResults(Filter(rows, Uncleared(accountId, ClearKeyword(keyword))), other, lookup)
            == SavedResults(rows, other, lookup)
  {
    var keep := Uncleared(accountId, ClearKeyword(keyword));
    var q := IsSearch(other, Trim(lookup));
    assert forall r :: q(r) ==> keep(r);
    FilterFilterImplied(rows, keep, q);
  }

  // ------------------------------------------------------------ searchKeyword

  const SearchAuthMessage := "認証が必要です"
  const KeywordRequiredMessage := "キーワードを入力してください"
  const GeminiKeyHint := "\n\n※ Gemini APIキーを設定すると、AIによる代替分析が利用できます。"

  /** What `tryThreadsKeywordSearch_` returned for the query: the posts and `hasMore`, or its error text. */
  datatype ApiOutcome = Found(posts: seq<FoundPost>, hasMore: bool) | ApiFailed(error: string)

  /** The answer of `searchKeyword`, from the Threads search or from the Gemini fallback. */
  datatype SearchAnswer =
    | FromApi(posts: seq<FoundPost>, keyword: string, totalCount: nat, searchType: string, searchMode: string,
              hasMore: bool, styles: StyleAnalysis)
    | FromFallback(keyword: string, apiError: string, myPosts: seq<PostRow>, analysis: string, totalCount: nat,
                   searchType: string, searchMode: string)

  /**
   * `searchKeyword`, given what the search call returned (`api`), the data
   * rows of 分析データ (`postRows`, none when the sheet is missing) and the
   * text `generateGeminiFallbackAnalysis_` returned (`analysis`; it catches
   * its own failures and returns a warning text instead, so it never throws).
   * A thrown error is an `Err`. A successful search replaces
   * the keyword's cached results and records the search in the history; the
   * fallback records the search with the number of the user's own matching
   * posts and caches nothing.
   */
  method SearchKeyword(results: Sheet<KeywordRow>, history: Sheet<HistoryRow>, account: Option<Accounts.Account>,
                       keyword: string, p: SearchParams, api: ApiOutcome, s: map<string, string>,
                       postRows: seq<PostRow>, analysis: string, now: int)
    returns (r: Result<SearchAnswer>)
    modifies results, history
    ensures account.None? || Accounts.AuthOf(account.value).accessToken == "" ==>
      r == Err(SearchAuthMessage) && unchanged(results) && unchanged(history)
    ensures account.Some? && Accounts.AuthOf(account.value).accessToken != "" && Trim(keyword) == "" ==>
      r == Err(KeywordRequiredMessage) && unchanged(results) && unchanged(history)
    ensures account.Some? && Accounts.AuthOf(account.value).accessToken != "" && Trim(keyword) != "" ==>
      var id, kw := Accounts.AccountIdOf(account.value), Trim(keyword);
      var searchType, searchMode := OrDefault(p.searchType, "TOP"), OrDefault(p.searchMode, "KEYWORD");
      && (api.Found? ==>
            && r == Ok(FromApi(api.posts, kw, |api.posts|, searchType, searchMode, api.hasMore, StylesOf(api.posts)))
            && results.rows == (if results.present
                                then Filter(old(results.rows), OtherSearch(id, kw))
                                     + ResultRows(id, kw, searchType, searchMode, api.posts, now)
                                else old(results.rows))
            && history.rows == (if history.present
                                then Filter(old(history.rows), OtherEntry(id, kw, searchMode))
                                     + [HistoryRow(id, kw, searchMode, |api.posts|, now)]
                                else old(history.rows)))
      && (api.ApiFailed? && Settings.Setting(s, "gemini_api_key") == "" ==>
            r == Err(api.error + GeminiKeyHint) && unchanged(results) && unchanged(history))
      && (api.ApiFailed? && Settings.Setting(s, "gemini_api_key") != "" ==>
            var mine := MyPostsByKeyword(postRows, id, kw);
            && r == Ok(FromFallback(kw, api.error, mine, analysis, |mine|, searchType, searchMode))
            && unchanged(results)
            && history.rows == (if history.present
                                then Filter(old(history.rows), OtherEntry(id, kw, searchMode))
                                     + [HistoryRow(id, kw, searchMode, |mine|, now)]
                                else old(history.rows)))
    ensures results.present == old(results.present) && results.headers == old(results.headers)
    ensures history.present == old(history.present) && history.headers == old(history.headers)
  {
    if account.None? || Accounts.AuthOf(account.value).accessToken == "" {
      return Err(SearchAuthMessage);
    }
    var kw := Trim(keyword);
    if kw == "" {
      return Err(KeywordRequiredMessage);
    }
    var id := Accounts.AccountIdOf(account.value);
    var searchType, searchMode := OrDefault(p.searchType, "TOP"), OrDefault(p.searchMode, "KEYWORD");
    if api.Found? {
      StoreResults(results, id, kw, searchType, searchMode, api.posts, now);
      AddHistory(history, id, kw, searchMode, |api.posts|, now);
      var styles := AnalyzeStyles(api.posts);
      return Ok(FromApi(api.posts, kw, |api.posts|, searchType, searchMode, api.hasMore, styles));
    }
    if Settings.Setting(s, "gemini_api_key") == "" {
      return Err(api.error + GeminiKeyHint);
    }
    var mine := MyPostsByKeyword(postRows, id, kw);
    AddHistory(history, id, kw, searchMode, |mine|, now);
    return Ok(FromFallback(kw, api.error, mine, analysis, |mine|, searchType, searchMode));
  }

  /** The search just recorded heads the account's history. */
  lemma SearchedHeadsHistory(rows: seq<HistoryRow>, accountId: string, keyword: string, searchMode: string,
                             resultCount: int, now: int)
    ensures var added := Filter(rows, OtherEntry(accountId, keyword, searchMode))
                         + [HistoryRow(accountId, keyword, searchMode, resultCount, now)];
      && |HistoryOf(added, accountId)| > 0
      && HistoryOf(added, accountId)[0] == HistoryEntry(keyword, searchMode, resultCount, now)
  {
    var row := HistoryRow(accountId, keyword, searchMode, resultCount, now);
    var added := Filter(rows, OtherEntry(accountId, keyword, searchMode)) + [row];
    NewestSplit(added, accountId, |added| - 1);
    assert added[|added| - 1..] == [row];
    assert Newest([row], accountId) == [EntryOf(row)] by {
      assert [row][1..] == [];
    }
  }
}
