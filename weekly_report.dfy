/**
 * WeeklyReport.js: the weekly report of an account. `generateWeeklyReport`
 * fixes the week that ended last Sunday, refuses a second report for the
 * same week and account, picks the three best posts of the last seven days,
 * reads the follower counts of the week and appends one row to 週次レポート;
 * `getWeeklyReport` and `getWeeklyReportList` read the account's reports
 * back, newest week first.
 */
module WeeklyReport {
  import opened Common
  import opened Store
  import Settings
  import Analytics
  import Retention

  const Headers: seq<string> := [
    "week_start", "week_end", "account_id", "followers_start", "followers_end", "followers_change",
    "total_views", "total_likes", "total_replies", "total_reposts", "avg_er", "post_count",
    "top_posts_json", "ai_summary", "created_at"]

  const NoTokenMessage := "アクセストークンがありません"
  const AlreadyGeneratedMessage := "今週のレポートは既に生成済みです"
  const AiFailedSummary := "(AI分析に失敗しました)"

  /** How many posts the report ranks, and how much of each text it keeps. */
  const TopCount: nat := 3
  const TopTextLength: nat := 100

  // ------------------------------------------------------------ the week

  /** `weekEnd`: today moved back to the last Sunday (today itself on a Sunday). */
  function WeekEnd(today: int): (e: int)
    ensures Weekday(e) == 0
    ensures e <= today < e + 7
  {
    var w := Weekday(today);
    assert (today + 4) == 7 * ((today + 4) / 7) + w;
    assert today - w + 4 == 7 * ((today + 4) / 7);
    today - w
  }

  /** `weekStart`: the Sunday a week before `weekEnd`. */
  function WeekStart(today: int): (s: int)
    ensures Weekday(s) == 0
    ensures s + 7 <= today < s + 14
  {
    var e := WeekEnd(today);
    assert e - 7 + 4 == (e + 4) - 7;
    e - 7
  }

  /** A day of the same week maps to the same `weekEnd`, so every run of one week sees the same window. */
  lemma {:induction false} WeekEndUnique(today: int, sunday: int)
    requires Weekday(sunday) == 0 && sunday <= today < sunday + 7
    ensures WeekEnd(today) == sunday
  {
    var e := WeekEnd(today);
    var k := (sunday + 4) / 7;
    var m := (e + 4) / 7;
    assert sunday + 4 == 7 * k;
    assert e + 4 == 7 * m;
    assert -7 < 7 * (k - m) < 7;
    assert k == m;
  }

  /** The account the report is for: `account_id`, else `user_id`, else 'default' (see Retention.ActingAccount). */
  function ReportAccount(s: map<string, string>): (id: string)
    ensures id != ""
  {
    Retention.ActingAccount(None, s)
  }

  // ------------------------------------------------------------ once per week

  /** A report row for the week starting `weekStart` and the account. */
  function SameWeek(weekStart: int, accountId: string): ReportRow -> bool
  {
    (r: ReportRow) => r.weekStart == weekStart && r.accountId == accountId
  }

  /** No two rows report the same week of the same account. */
  predicate OnePerWeek(rows: seq<ReportRow>)
  {
    forall i, j :: 0 <= i < j < |rows| ==> !SameWeek(rows[i].weekStart, rows[i].accountId)(rows[j])
  }

  /** The guard's answer: the row just appended is what a second run finds. */
  lemma AppendedIsFound(rows: seq<ReportRow>, row: ReportRow)
    ensures FirstWhere(rows + [row], SameWeek(row.weekStart, row.accountId)).Some?
  {
    var s := rows + [row];
    assert SameWeek(row.weekStart, row.accountId)(s[|rows|]);
  }

  /** Appending only when the guard finds nothing keeps one report per week and account. */
  lemma AppendKeepsOnePerWeek(rows: seq<ReportRow>, row: ReportRow)
    requires OnePerWeek(rows)
    requires FirstWhere(rows, SameWeek(row.weekStart, row.accountId)).None?
    ensures OnePerWeek(rows + [row])
  {
    var s := rows + [row];
    forall i, j | 0 <= i < j < |s|
      ensures !SameWeek(s[i].weekStart, s[i].accountId)(s[j])
    {
      if j == |rows| {
        assert !SameWeek(row.weekStart, row.accountId)(rows[i]);
      } else {
        assert s[i] == rows[i] && s[j] == rows[j];
      }
    }
  }

  // ------------------------------------------------------------ top posts

  function PositiveEr(p: PostRow): bool
  {
    p.erCenti > 0
  }

  /** The posts with a positive rate, best first (`filter` then `sort`). */
  function Ranked(posts: seq<PostRow>): seq<PostRow>
  {
    SortDesc(Filter(posts, PositiveEr), Analytics.ErKey)
  }

  /** The `{text, er, likes, views}` entry of one post. */
  function Summarize(p: PostRow): TopPost
  {
    TopPost(Take(p.text, TopTextLength), p.erCenti, p.metrics.views, p.metrics.likes)
  }

  function Summaries(ps: seq<PostRow>): (r: seq<TopPost>)
    ensures |r| == |ps|
    ensures forall i :: 0 <= i < |ps| ==> r[i] == Summarize(ps[i])
  {
    if |ps| == 0 then [] else Summaries(ps[..|ps| - 1]) + [Summarize(ps[|ps| - 1])]
  }

  function TopEr(t: TopPost): int
  {
    t.erCenti
  }

  /** `topPosts`: the three best posts with a positive rate. */
  function TopPosts(posts: seq<PostRow>): (r: seq<TopPost>)
    ensures |r| == Min(TopCount, Count(posts, PositiveEr))
  {
    Summaries(Take(Ranked(posts), TopCount))
  }

  /** Each entry is a post of the period with a positive rate, its text cut to 100 characters, best first. */
  lemma TopPostsFacts(posts: seq<PostRow>)
    ensures var r := TopPosts(posts);
      && SortedDesc(r, TopEr)
      && forall i :: 0 <= i < |r| ==>
           r[i].erCenti > 0 && |r[i].text| <= TopTextLength
           && exists p :: p in posts && PositiveEr(p) && r[i] == Summarize(p)
  {
    var ranked := Ranked(posts);
    var taken := Take(ranked, TopCount);
    var r := TopPosts(posts);
    forall i | 0 <= i < |r|
      ensures r[i].erCenti > 0 && |r[i].text| <= TopTextLength
      ensures exists p :: p in posts && PositiveEr(p) && r[i] == Summarize(p)
    {
      var p := taken[i];
      assert p == ranked[i];
      assert p in multiset(ranked);
      assert p in Filter(posts, PositiveEr);
      FilterMember(posts, PositiveEr, p);
      assert r[i] == Summarize(p);
    }
    forall i, j | 0 <= i < j < |r|
      ensures TopEr(r[i]) >= TopEr(r[j])
    {
      assert r[i].erCenti == ranked[i].erCenti && r[j].erCenti == ranked[j].erCenti;
    }
  }

  /** A post with a positive rate that is not among the top posts rates no higher than any of the three. */
  lemma TopPostsAreBest(posts: seq<PostRow>, p: PostRow)
    requires p in posts && PositiveEr(p)
    ensures var r := TopPosts(posts);
      Summarize(p) in r || (|r| == TopCount && forall i :: 0 <= i < |r| ==> r[i].erCenti >= p.erCenti)
  {
    var ranked := Ranked(posts);
    var r := TopPosts(posts);
    var at :| 0 <= at < |posts| && posts[at] == p;
    FilterContains(posts, PositiveEr, at);
    SortDescMember(Filter(posts, PositiveEr), Analytics.ErKey, p);
    var k :| 0 <= k < |ranked| && ranked[k] == p;
    if k < TopCount {
      assert r[k] == Summarize(p);
    } else {
      forall i | 0 <= i < |r|
        ensures r[i].erCenti >= p.erCenti
      {
        assert r[i].erCenti == ranked[i].erCenti;
        assert Analytics.ErKey(ranked[i]) >= Analytics.ErKey(ranked[k]);
      }
    }
  }

  // ------------------------------------------------------------ the follower window

  /** A row of the account whose date falls in `[weekStart, weekEnd]`. */
  function InWeek(accountId: string, weekStart: int, weekEnd: int): FollowerRow -> bool
  {
    (r: FollowerRow) => r.accountId == accountId && r.date.Some? && weekStart <= r.date.value.day <= weekEnd
  }

  /** A row of the account whose date cell does not hold a date: formatting it throws and ends the scan. */
  function UndatedOwn(accountId: string): FollowerRow -> bool
  {
    (r: FollowerRow) => r.accountId == accountId && r.date.None?
  }

  /** The rows the scan gets through before it throws, if it does. */
  function Scanned(rows: seq<FollowerRow>, accountId: string): seq<FollowerRow>
  {
    match FirstWhere(rows, UndatedOwn(accountId))
    case Some(k) => rows[..k]
    case None => rows
  }

  /** The first non-zero count and the last count of the selected rows (0 without one). */
  function SpanOf(sel: seq<FollowerRow>): Retention.Span
  {
    var c := Retention.Counts(sel);
    Retention.Span(FirstNonZero(c), Retention.LastOrZero(c))
  }

  /** `followerStart` and `followerEnd` of the week. */
  function WeekSpan(rows: seq<FollowerRow>, accountId: string, weekStart: int, weekEnd: int): Retention.Span
  {
    SpanOf(Filter(Scanned(rows, accountId), InWeek(accountId, weekStart, weekEnd)))
  }

  /** One more selected row: it becomes the end count, and the start count while there is none. */
  lemma SpanOfSnoc(sel: seq<FollowerRow>, x: FollowerRow)
    ensures var w := SpanOf(sel);
      SpanOf(sel + [x]) == Retention.Span(if w.first != 0 then w.first else x.count, x.count)
  {
    var c := Retention.Counts(sel);
    assert (sel + [x])[..|sel|] == sel;
    assert Retention.Counts(sel + [x]) == c + [x.count];
    FirstNonZeroSnoc(c, x.count);
  }

  /** The start count is the first non-zero count of the week, the end count the last one. */
  lemma WeekSpanOfRows(rows: seq<FollowerRow>, accountId: string, weekStart: int, weekEnd: int)
    ensures var sel := Filter(Scanned(rows, accountId), InWeek(accountId, weekStart, weekEnd));
      var w := WeekSpan(rows, accountId, weekStart, weekEnd);
      && (|sel| == 0 ==> w == Retention.Span(0, 0))
      && (|sel| > 0 ==> w.latest == sel[|sel| - 1].count)
      && (w.first == 0 <==> forall i :: 0 <= i < |sel| ==> sel[i].count == 0)
      && (w.first != 0 ==> exists i :: 0 <= i < |sel| && sel[i].count == w.first
                                        && forall j :: 0 <= j < i ==> sel[j].count == 0)
  {
    var sel := Filter(Scanned(rows, accountId), InWeek(accountId, weekStart, weekEnd));
    var c := Retention.Counts(sel);
    var w := WeekSpan(rows, accountId, weekStart, weekEnd);
    if w.first != 0 {
      var i :| 0 <= i < |c| && c[i] == w.first && forall j :: 0 <= j < i ==> c[j] == 0;
      assert sel[i].count == w.first;
    }
  }

  /** Once the scan reaches an undated row of the account, later rows do not count. */
  lemma ScanStopsAtUndated(rows: seq<FollowerRow>, x: FollowerRow, more: seq<FollowerRow>,
                           accountId: string, weekStart: int, weekEnd: int)
    requires UndatedOwn(accountId)(x)
    ensures WeekSpan(rows + [x] + more, accountId, weekStart, weekEnd) == WeekSpan(rows + [x], accountId, weekStart, weekEnd)
  {
    var p := UndatedOwn(accountId);
    var a := rows + [x];
    var b := a + more;
    assert p(b[|rows|]);
    var k := FirstWhere(b, p).value;
    assert k <= |rows|;
    assert a[k] == b[k];
    assert forall j :: 0 <= j < k ==> a[j] == b[j];
    FirstWhereAt(a, p, k);
    assert a[..k] == b[..k];
  }

  /** What one row that does not throw does to the two counts. */
  function Advance(w: Retention.Span, x: FollowerRow, accountId: string, weekStart: int, weekEnd: int): Retention.Span
  {
    if InWeek(accountId, weekStart, weekEnd)(x) then Retention.Span(if w.first != 0 then w.first else x.count, x.count)
    else w
  }

  /** One more row of the scan that does not throw. */
  lemma WeekStep(rows: seq<FollowerRow>, i: nat, accountId: string, weekStart: int, weekEnd: int)
    requires i < |rows|
    ensures var keep := InWeek(accountId, weekStart, weekEnd);
      SpanOf(Filter(rows[..i + 1], keep)) == Advance(SpanOf(Filter(rows[..i], keep)), rows[i], accountId, weekStart, weekEnd)
  {
    var keep := InWeek(accountId, weekStart, weekEnd);
    var done := rows[..i];
    var x := rows[i];
    assert rows[..i + 1] == done + [x];
    FilterSnoc(done, x, keep);
    if keep(x) {
      assert Filter(done + [x], keep) == Filter(done, keep) + [x];
      SpanOfSnoc(Filter(done, keep), x);
    } else {
      assert Filter(done + [x], keep) == Filter(done, keep) + [];
      assert Filter(done, keep) + [] == Filter(done, keep);
    }
  }

  /** Where the scan stands: the two counts so far, and whether a row has thrown. */
  datatype ScanState = ScanState(span: Retention.Span, thrown: bool)

  /** The scan row by row: an undated row of the account throws, and nothing counts after that. */
  function ScanOf(rows: seq<FollowerRow>, accountId: string, weekStart: int, weekEnd: int): ScanState
  {
    if |rows| == 0 then ScanState(Retention.Span(0, 0), false)
    else
      var st := ScanOf(rows[..|rows| - 1], accountId, weekStart, weekEnd);
      var x := rows[|rows| - 1];
      if st.thrown then st
      else if x.accountId == accountId && x.date.None? then ScanState(st.span, true)
      else ScanState(Advance(st.span, x, accountId, weekStart, weekEnd), false)
  }

  /** Once the scan has thrown, the rows after do not change it. */
  lemma {:induction false} ThrownStays(rows: seq<FollowerRow>, k: nat, accountId: string, weekStart: int, weekEnd: int)
    requires k <= |rows| && ScanOf(rows[..k], accountId, weekStart, weekEnd).thrown
    ensures ScanOf(rows, accountId, weekStart, weekEnd) == ScanOf(rows[..k], accountId, weekStart, weekEnd)
    decreases |rows| - k
  {
    if k < |rows| {
      var init := rows[..|rows| - 1];
      assert init[..k] == rows[..k];
      ThrownStays(init, k, accountId, weekStart, weekEnd);
    } else {
      assert rows[..k] == rows;
    }
  }

  /** How the rows the scan gets through grow by one row. */
  lemma ScannedSnoc(rows: seq<FollowerRow>, accountId: string)
    requires |rows| > 0
    ensures var init := rows[..|rows| - 1];
      var p := UndatedOwn(accountId);
      && (FirstWhere(init, p).Some? ==> FirstWhere(rows, p) == FirstWhere(init, p) && Scanned(rows, accountId) == Scanned(init, accountId))
      && (FirstWhere(init, p).None? && p(rows[|rows| - 1]) ==> FirstWhere(rows, p).Some? && Scanned(rows, accountId) == init == Scanned(init, accountId))
      && (FirstWhere(init, p).None? && !p(rows[|rows| - 1]) ==> FirstWhere(rows, p).None? && Scanned(rows, accountId) == rows)
  {
    var p := UndatedOwn(accountId);
    var n := |rows| - 1;
    var init := rows[..n];
    assert forall j :: 0 <= j < n ==> rows[j] == init[j];
    if FirstWhere(init, p).Some? {
      var k := FirstWhere(init, p).value;
      FirstWhereAt(rows, p, k);
      assert rows[..k] == init[..k];
    } else if p(rows[n]) {
      FirstWhereAt(rows, p, n);
    }
  }

  /**
   * The scan agrees with the window description: it throws exactly when the
   * rows hold an undated row of the account, and its counts are those of
   * the week's rows before that row.
   */
  lemma {:induction false} ScanOfIsWeekSpan(rows: seq<FollowerRow>, accountId: string, weekStart: int, weekEnd: int)
    ensures ScanOf(rows, accountId, weekStart, weekEnd).thrown == FirstWhere(rows, UndatedOwn(accountId)).Some?
    ensures ScanOf(rows, accountId, weekStart, weekEnd).span == WeekSpan(rows, accountId, weekStart, weekEnd)
  {
    if |rows| > 0 {
      var n := |rows| - 1;
      var init := rows[..n];
      ScanOfIsWeekSpan(init, accountId, weekStart, weekEnd);
      ScannedSnoc(rows, accountId);
      if FirstWhere(init, UndatedOwn(accountId)).None? && !UndatedOwn(accountId)(rows[n]) {
        WeekStep(rows, n, accountId, weekStart, weekEnd);
        assert rows[..n + 1] == rows;
      }
    }
  }

  /** The follower loop of `generateWeeklyReport`, inside its `try`. */
  method ScanWeek(rows: seq<FollowerRow>, accountId: string, weekStart: int, weekEnd: int)
    returns (w: Retention.Span)
    ensures w == WeekSpan(rows, accountId, weekStart, weekEnd)
  {
    ScanOfIsWeekSpan(rows, accountId, weekStart, weekEnd);
    w := Retention.Span(0, 0);
    var i := 0;
    while i < |rows|
      invariant 0 <= i <= |rows|
      invariant ScanOf(rows[..i], accountId, weekStart, weekEnd) == ScanState(w, false)
    {
      var r := rows[i];
      assert rows[..i + 1][..i] == rows[..i];
      if r.accountId == accountId && r.date.None? {
        ThrownStays(rows, i + 1, accountId, weekStart, weekEnd);
        return;
      }
      if r.accountId == accountId {
        var d := r.date.value.day;
        if weekStart <= d <= weekEnd {
          if w.first == 0 {
            w := w.(first := r.count);
          }
          w := w.(latest := r.count);
        }
      }
      i := i + 1;
    }
    assert rows[..i] == rows;
  }

  // ------------------------------------------------------------ the report row

  /** `aiSummary`: asked only with a Gemini key and some posts; `ai` is the reply text, None when the call threw. */
  function AiSummary(s: map<string, string>, postCount: nat, ai: Option<string>): string
  {
    if Settings.Setting(s, "gemini_api_key") != "" && postCount > 0 then
      match ai
      case Some(text) => text
      case None => AiFailedSummary
    else ""
  }

  /** The 15-column row; a missing summary (`{}`) reads as zeros. */
  function ReportOf(today: int, accountId: string, w: Retention.Span, view: Analytics.AnalyticsView,
                    aiSummary: string, nowMs: int): ReportRow
  {
    var t := if view.summary.Some? then view.summary.value.totals else ZeroMetrics;
    var avg := if view.summary.Some? then view.summary.value.avgErCenti else 0;
    var n := if view.summary.Some? then view.summary.value.totalPosts else 0;
    ReportRow(WeekStart(today), WeekEnd(today), accountId, w.first, w.latest, w.latest - w.first,
              t.views, t.likes, t.replies, t.reposts, avg, n, TopPosts(view.posts), aiSummary, nowMs)
  }

  /** What every generated row satisfies. */
  predicate Consistent(r: ReportRow)
  {
    && Weekday(r.weekStart) == 0
    && r.weekEnd == r.weekStart + 7
    && r.followersChange == r.followersEnd - r.followersStart
    && |r.topPosts| <= TopCount
    && SortedDesc(r.topPosts, TopEr)
    && forall i :: 0 <= i < |r.topPosts| ==> r.topPosts[i].erCenti > 0 && |r.topPosts[i].text| <= TopTextLength
  }

  predicate AllConsistent(rows: seq<ReportRow>)
  {
    forall i :: 0 <= i < |rows| ==> Consistent(rows[i])
  }

  /** A generated row covers a Sunday-to-Sunday week, its change is end minus start, its top posts are ranked. */
  lemma ReportConsistent(today: int, accountId: string, w: Retention.Span, view: Analytics.AnalyticsView,
                         aiSummary: string, nowMs: int)
    ensures Consistent(ReportOf(today, accountId, w, view, aiSummary, nowMs))
  {
    TopPostsFacts(view.posts);
    assert WeekEnd(today) == WeekStart(today) + 7;
  }

  datatype Outcome =
    | NoToken
    | AlreadyGenerated(weekStart: int, weekEnd: int)
    | Generated(report: ReportRow)

  /**
   * `generateWeeklyReport`: `followers` are the rows of フォロワー推移 (none
   * when it is missing), `analytics` what `getAnalyticsData(ss, 7)` returned
   * (None when it threw), `ai` the Gemini reply (None when the call threw).
   */
  method GenerateWeeklyReport(sheet: Sheet<ReportRow>, followers: seq<FollowerRow>, s: map<string, string>,
                              today: int, nowMs: int, analytics: Option<Analytics.AnalyticsView>, ai: Option<string>)
    returns (o: Outcome)
    modifies sheet
    ensures Settings.Setting(s, "access_token") == "" ==> o == NoToken && unchanged(sheet)
    ensures Settings.Setting(s, "access_token") != "" ==>
      && sheet.present
      && sheet.headers == (if old(sheet.present) then old(sheet.headers) else Headers)
    ensures Settings.Setting(s, "access_token") != ""
            && FirstWhere(RowsIf(old(sheet.present), old(sheet.rows)), SameWeek(WeekStart(today), ReportAccount(s))).Some? ==>
      o == AlreadyGenerated(WeekStart(today), WeekEnd(today)) && sheet.rows == RowsIf(old(sheet.present), old(sheet.rows))
    ensures Settings.Setting(s, "access_token") != ""
            && FirstWhere(RowsIf(old(sheet.present), old(sheet.rows)), SameWeek(WeekStart(today), ReportAccount(s))).None? ==>
      var view := if analytics.Some? then analytics.value else Analytics.AnalyticsView([], None);
      var acct := ReportAccount(s);
      && o == Generated(ReportOf(today, acct, WeekSpan(followers, acct, WeekStart(today), WeekEnd(today)), view,
                                 AiSummary(s, |view.posts|, ai), nowMs))
      && sheet.rows == RowsIf(old(sheet.present), old(sheet.rows)) + [o.report]
  {
    if Settings.Setting(s, "access_token") == "" {
      return NoToken;
    }
    var weekStart := WeekStart(today);
    var weekEnd := WeekEnd(today);
    var accountId := ReportAccount(s);
    if !sheet.present {
      sheet.Insert(Headers);
    }
    var existing := FindFirst(sheet.rows, SameWeek(weekStart, accountId));
    if existing.Some? {
      return AlreadyGenerated(weekStart, weekEnd);
    }
    var view := if analytics.Some? then analytics.value else Analytics.AnalyticsView([], None);
    var w := ScanWeek(followers, accountId, weekStart, weekEnd);
    var row := ReportOf(today, accountId, w, view, AiSummary(s, |view.posts|, ai), nowMs);
    sheet.AppendRows([row]);
    return Generated(row);
  }

  /** The sheet's invariants survive a run: each report is consistent, and there is one per week and account. */
  lemma GeneratePreserves(rows: seq<ReportRow>, today: int, accountId: string, w: Retention.Span,
                          view: Analytics.AnalyticsView, aiSummary: string, nowMs: int)
    requires AllConsistent(rows) && OnePerWeek(rows)
    requires FirstWhere(rows, SameWeek(WeekStart(today), accountId)).None?
    ensures var row := ReportOf(today, accountId, w, view, aiSummary, nowMs);
      AllConsistent(rows + [row]) && OnePerWeek(rows + [row])
  {
    var row := ReportOf(today, accountId, w, view, aiSummary, nowMs);
    ReportConsistent(today, accountId, w, view, aiSummary, nowMs);
    AppendKeepsOnePerWeek(rows, row);
    assert forall i :: 0 <= i < |rows| ==> (rows + [row])[i] == rows[i];
  }

  /** A second run on any day of the same week finds the first run's row and appends nothing. */
  lemma SecondRunSameWeek(rows: seq<ReportRow>, today: int, later: int, accountId: string, w: Retention.Span,
                          view: Analytics.AnalyticsView, aiSummary: string, nowMs: int)
    requires WeekEnd(today) <= later < WeekEnd(today) + 7
    ensures var row := ReportOf(today, accountId, w, view, aiSummary, nowMs);
      FirstWhere(rows + [row], SameWeek(WeekStart(later), accountId)).Some?
  {
    WeekEndUnique(later, WeekEnd(today));
    var row := ReportOf(today, accountId, w, view, aiSummary, nowMs);
    AppendedIsFound(rows, row);
  }

  // ------------------------------------------------------------ reading reports back

  function OfAccount(accountId: string): ReportRow -> bool
  {
    (r: ReportRow) => r.accountId == accountId
  }

  function StartKey(r: ReportRow): int
  {
    r.weekStart
  }

  /** The account's reports, newest week first. */
  function ReportsOf(rows: seq<ReportRow>, accountId: string): seq<ReportRow>
  {
    SortDesc(Filter(rows, OfAccount(accountId)), StartKey)
  }

  /** `reports[weekOffset || 0] || null`. */
  function ReportAt(reports: seq<ReportRow>, weekOffset: Option<int>): (r: Option<ReportRow>)
    ensures r.Some? <==> 0 <= OrZero(weekOffset) < |reports|
    ensures r.Some? ==> r.value == reports[OrZero(weekOffset)]
  {
    var k := OrZero(weekOffset);
    if 0 <= k < |reports| then Some(reports[k]) else None
  }

  function OrZero(v: Option<int>): int
  {
    if v.Some? then v.value else 0
  }

  /** The loop that collects the account's rows. */
  method CollectReports(rows: seq<ReportRow>, accountId: string) returns (reports: seq<ReportRow>)
    ensures reports == Filter(rows, OfAccount(accountId))
  {
    reports := [];
    var i := 0;
    while i < |rows|
      invariant 0 <= i <= |rows|
      invariant reports == Filter(rows[..i], OfAccount(accountId))
    {
      assert rows[..i + 1] == rows[..i] + [rows[i]];
      FilterSnoc(rows[..i], rows[i], OfAccount(accountId));
      if rows[i].accountId == accountId {
        reports := reports + [rows[i]];
      }
      i := i + 1;
    }
    assert rows[..i] == rows;
  }

  /** `getWeeklyReport(weekOffset)`: a missing or empty sheet gives null. */
  method GetWeeklyReport(sheet: Sheet<ReportRow>, s: map<string, string>, weekOffset: Option<int>)
    returns (r: Option<ReportRow>)
    ensures r == ReportAt(ReportsOf(RowsIf(sheet.present, sheet.rows), ReportAccount(s)), weekOffset)
  {
    if !sheet.present || |sheet.rows| == 0 {
      return None;
    }
    var reports := CollectReports(sheet.rows, ReportAccount(s));
    reports := SortDesc(reports, StartKey);
    r := ReportAt(reports, weekOffset);
  }

  /** One entry of `getWeeklyReportList`. */
  datatype ListItem = ListItem(weekStart: int, weekEnd: int, postCount: int, avgErCenti: int, followersChange: int)

  function ItemOf(r: ReportRow): ListItem
  {
    ListItem(r.weekStart, r.weekEnd, r.postCount, r.avgErCenti, r.followersChange)
  }

  function Items(reports: seq<ReportRow>): (r: seq<ListItem>)
    ensures |r| == |reports|
    ensures forall i :: 0 <= i < |reports| ==> r[i] == ItemOf(reports[i])
  {
    if |reports| == 0 then [] else Items(reports[..|reports| - 1]) + [ItemOf(reports[|reports| - 1])]
  }

  /** `getWeeklyReportList`: a missing or empty sheet gives []. */
  method GetWeeklyReportList(sheet: Sheet<ReportRow>, s: map<string, string>) returns (list: seq<ListItem>)
    ensures list == Items(ReportsOf(RowsIf(sheet.present, sheet.rows), ReportAccount(s)))
  {
    if !sheet.present || |sheet.rows| == 0 {
      return [];
    }
    var reports := CollectReports(sheet.rows, ReportAccount(s));
    list := Items(SortDesc(reports, StartKey));
  }

  /** The listed reports are exactly the account's rows, newest week first. */
  lemma ReportsListed(rows: seq<ReportRow>, accountId: string, r: ReportRow)
    ensures r in ReportsOf(rows, accountId) <==> r in rows && r.accountId == accountId
    ensures SortedDesc(ReportsOf(rows, accountId), StartKey)
  {
    SortDescMember(Filter(rows, OfAccount(accountId)), StartKey, r);
    if r in Filter(rows, OfAccount(accountId)) {
      FilterMember(rows, OfAccount(accountId), r);
    }
    if r in rows && r.accountId == accountId {
      var at :| 0 <= at < |rows| && rows[at] == r;
      FilterContains(rows, OfAccount(accountId), at);
    }
  }

  /** Offset i of `getWeeklyReport` is entry i of `getWeeklyReportList`, and both end together. */
  lemma ListMatchesReports(rows: seq<ReportRow>, accountId: string, i: int)
    ensures var list := Items(ReportsOf(rows, accountId));
      var r := ReportAt(ReportsOf(rows, accountId), Some(i));
      && (r.Some? <==> 0 <= i < |list|)
      && (r.Some? ==> ItemOf(r.value) == list[i])
  {
  }

  /** Without an offset the report is the account's latest week. */
  lemma DefaultIsLatest(rows: seq<ReportRow>, accountId: string, x: ReportRow)
    requires x in rows && x.accountId == accountId
    ensures var r := ReportAt(ReportsOf(rows, accountId), None);
      r.Some? && r.value in rows && r.value.accountId == accountId && r.value.weekStart >= x.weekStart
  {
    var reports := ReportsOf(rows, accountId);
    ReportsListed(rows, accountId, x);
    var k :| 0 <= k < |reports| && reports[k] == x;
    ReportsListed(rows, accountId, reports[0]);
    if k > 0 {
      assert StartKey(reports[0]) >= StartKey(reports[k]);
    }
  }

  /** On a sheet whose rows were all generated, every report read back is consistent. */
  lemma ReadBackConsistent(rows: seq<ReportRow>, accountId: string, weekOffset: Option<int>)
    requires AllConsistent(rows)
    ensures var r := ReportAt(ReportsOf(rows, accountId), weekOffset);
      r.Some? ==> Consistent(r.value)
  {
    var reports := ReportsOf(rows, accountId);
    var r := ReportAt(reports, weekOffset);
    if r.Some? {
      var x := r.value;
      assert x in reports;
      ReportsListed(rows, accountId, x);
    }
  }
}
