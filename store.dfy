/**
 * The spreadsheet as the scripts see it: one typed record per data row of
 * every sheet, and a `Sheet` object whose rows the scripts append, overwrite
 * and delete in place. Data row `i` of `rows` is sheet row `i + 2` (row 1
 * holds the headers); the settings sheet has no header row.
 */
module Store {
  import opened Common

  /**
   * A date cell: epoch milliseconds, the local calendar day it falls on
   * (day numbers order exactly like the `yyyy-MM-dd` keys the scripts
   * format) and the local hour.
   */
  datatype Stamp = Stamp(ms: int, day: int, hour: HourOfDay)

  /** `Date.getHours()`. */
  type HourOfDay = h: int | 0 <= h < 24

  const DayMs: int := 86400000

  /** `Date.getDay()` of a day number: 0 is Sunday; day 0 (1970-01-01) was a Thursday. */
  function Weekday(day: int): (w: int)
    ensures 0 <= w < 7
  {
    (day + 4) % 7
  }

  // ------------------------------------------------------------ row records

  /** 設定: one key/value pair per row. */
  datatype SettingRow = SettingRow(key: string, value: string)

  /** アカウント */
  datatype AccountRow = AccountRow(
    accountId: string, accessToken: string, userId: string, username: string,
    profilePicUrl: string, tokenExpires: Option<int>, createdAt: int)

  /** The six counters the Threads API reports for a post. */
  datatype Metrics = Metrics(views: int, likes: int, replies: int, reposts: int, quotes: int, shares: int)

  const ZeroMetrics := Metrics(0, 0, 0, 0, 0, 0)

  /** 分析データ: `erCenti` is the engagement-rate cell times 100. */
  datatype PostRow = PostRow(
    postId: string, accountId: string, text: string, mediaType: string,
    timestamp: Option<Stamp>, metrics: Metrics, erCenti: int, permalink: string,
    isQuotePost: bool, topicTag: string, fetchedAt: int)

  /** 時間帯分析: account, weekday name, 24 hourly average rates (times 100). */
  datatype TimeRow = TimeRow(accountId: string, dayName: string, cells: seq<int>)

  /** ユーザーインサイト */
  datatype InsightRow = InsightRow(
    accountId: string, date: int, views: int, likes: int, replies: int, reposts: int,
    quotes: int, clicks: int, followersCount: int, fetchedAt: int)

  /** 下書き (thread_id and thread_order are columns 8 and 9 once the header names them). */
  datatype DraftRow = DraftRow(
    draftId: string, accountId: string, text: string, kind: string, createdAt: int,
    status: string, source: string, threadId: string, threadOrder: int)

  /** 競合アカウント */
  datatype CompetitorRow = CompetitorRow(
    competitorId: string, accountId: string, username: string, displayName: string,
    category: string, followersCount: int, followersUpdated: int, memo: string, createdAt: int)

  /** 競合ウォッチ */
  datatype WatchRow = WatchRow(
    watchId: string, accountId: string, username: string, postUrl: string, postText: string,
    mediaType: string, likes: int, replies: int, reposts: int, postDate: string,
    tags: string, memo: string, createdAt: int)

  /** キーワード検索 */
  datatype KeywordRow = KeywordRow(
    accountId: string, keyword: string, searchMode: string, searchType: string,
    postId: string, username: string, text: string, mediaType: string, permalink: string,
    timestamp: string, hasReplies: bool, isQuotePost: bool, isReply: bool, fetchedAt: int)

  /** 検索履歴 */
  datatype HistoryRow = HistoryRow(
    accountId: string, keyword: string, searchMode: string, resultCount: int, searchedAt: int)

  /**
   * 成長スコア. The details_json column is not kept: the code always writes
   * the same object there, with followerGrowthPct, thisWeekER, prevER,
   * postCount and aiCount all 0.
   */
  datatype ScoreRow = ScoreRow(
    date: Option<Stamp>, accountId: string, score: int, followerScore: int,
    erTrendScore: int, frequencyScore: int, aiUsageScore: int)

  /** チェックイン */
  datatype CheckinRow = CheckinRow(
    date: Option<Stamp>, accountId: string, streak: int, message: string,
    recommendedTime: string, recommendedTheme: string)

  /** 目標 */
  datatype GoalRow = GoalRow(
    id: string, accountId: string, goalType: string, labelText: string, target: int,
    current: int, achieved: bool, createdAt: Option<Stamp>, achievedAt: string)

  /** One entry of a weekly report's top_posts_json column. */
  datatype TopPost = TopPost(text: string, erCenti: int, views: int, likes: int)

  /** 週次レポート: week_start and week_end are day numbers. */
  datatype ReportRow = ReportRow(
    weekStart: int, weekEnd: int, accountId: string, followersStart: int, followersEnd: int,
    followersChange: int, totalViews: int, totalLikes: int, totalReplies: int, totalReposts: int,
    avgErCenti: int, postCount: int, topPosts: seq<TopPost>, aiSummary: string, createdAt: int)

  /** フォロワー推移: the weekly change is kept in tenths of a percent. */
  datatype FollowerRow = FollowerRow(
    date: Option<Stamp>, count: int, follows: int, dailyChange: int,
    weeklyPctTenths: int, accountId: string)

  /** AI生成ログ: the cells taken from a generated item keep their JSON value. */
  datatype AiLogRow = AiLogRow(
    at: int, accountId: string, theme: string, mode: string, text: Json, reason: Json,
    expectedEr: Json, bestTime: Json, mediaAdvice: Json, analysis: string)

  // ------------------------------------------------------------ sheets

  /**
   * A named sheet of the spreadsheet: whether it exists (`getSheetByName`
   * returns null when it does not), its header row and its data rows,
   * changed in place.
   */
  class Sheet<R> {
    var present: bool
    var headers: seq<string>
    var rows: seq<R>

    constructor (present: bool, headers: seq<string>, rows: seq<R>)
      ensures this.present == present && this.headers == headers && this.rows == rows
    {
      this.present := present;
      this.headers := headers;
      this.rows := rows;
    }

    /** `ss.insertSheet(name)` followed by writing the header row. */
    method Insert(h: seq<string>)
      modifies this
      ensures present && headers == h && rows == []
    {
      present := true;
      headers := h;
      rows := [];
    }

    /** `appendRow` / a block write just below the last row. */
    method AppendRows(rs: seq<R>)
      modifies this
      ensures rows == old(rows) + rs && headers == old(headers) && present == old(present)
    {
      rows := rows + rs;
    }

    /** `getRange(i + 2, 1, 1, n).setValues([r])`. */
    method SetRow(i: nat, r: R)
      requires i < |rows|
      modifies this
      ensures rows == old(rows)[i := r] && headers == old(headers) && present == old(present)
    {
      rows := rows[i := r];
    }

    /** `deleteRow(i + 2)`: the rows below move up by one. */
    method DeleteRow(i: nat)
      requires i < |rows|
      modifies this
      ensures rows == old(rows)[..i] + old(rows)[i + 1..] && headers == old(headers) && present == old(present)
    {
      rows := rows[..i] + rows[i + 1..];
    }

    /** `clearContent` of the data rows followed by writing `rs` from row 2. */
    method ReplaceRows(rs: seq<R>)
      modifies this
      ensures rows == rs && headers == old(headers) && present == old(present)
    {
      rows := rs;
    }

    /** Writes the header row. */
    method SetHeaders(h: seq<string>)
      modifies this
      ensures headers == h && rows == old(rows) && present == old(present)
    {
      headers := h;
    }
  }

  /** The data rows a possibly missing sheet yields: none when it is missing. */
  function RowsIf<R>(present: bool, rows: seq<R>): seq<R>
  {
    if present then rows else []
  }

  /** One step of the bottom-up scan: row `r` stays when kept and goes otherwise. */
  lemma BottomUpStep<R>(original: seq<R>, r: nat, keep: R -> bool)
    requires r < |original|
    ensures var a := original[..r + 1] + Filter(original[r + 1..], keep);
      && |a| > r
      && (keep(original[r]) ==> a == original[..r] + Filter(original[r..], keep))
      && (!keep(original[r]) ==> a[..r] + a[r + 1..] == original[..r] + Filter(original[r..], keep))
  {
    var a := original[..r + 1] + Filter(original[r + 1..], keep);
    assert original[r..] == [original[r]] + original[r + 1..];
    FilterCons(original[r], original[r + 1..], keep);
    assert original[..r + 1] == original[..r] + [original[r]];
    assert a[..r] == original[..r];
    assert a[r + 1..] == Filter(original[r + 1..], keep);
  }

  /**
   * The loop the scripts write to drop rows: from the last data row up to
   * the first, `deleteRow` every row that `keep` rejects, so that the rows
   * still to be visited do not move.
   */
  method DeleteRowsBottomUp<R>(sheet: Sheet<R>, keep: R -> bool) returns (deleted: nat)
    modifies sheet
    ensures sheet.rows == Filter(old(sheet.rows), keep)
    ensures deleted == |old(sheet.rows)| - |sheet.rows|
    ensures sheet.headers == old(sheet.headers) && sheet.present == old(sheet.present)
  {
    var original := sheet.rows;
    var r := |sheet.rows|;
    deleted := 0;
    while r > 0
      invariant 0 <= r <= |original|
      invariant sheet.rows == original[..r] + Filter(original[r..], keep)
      invariant deleted == |original| - |sheet.rows|
      invariant sheet.headers == old(sheet.headers) && sheet.present == old(sheet.present)
    {
      r := r - 1;
      BottomUpStep(original, r, keep);
      if !keep(original[r]) {
        sheet.DeleteRow(r);
        deleted := deleted + 1;
      }
    }
    assert original[0..] == original;
  }
}
