/**
 * Retention: the growth score of an account (four sub-scores of 0 to 25
 * each, kept once a day in 成長スコア), the daily check-in with its
 * streak and recommended hour (チェックイン), and goals (目標).
 */
module Retention {
  import opened Common
  import opened Store
  import Settings
  import Accounts
  import Analytics
  import TimeAnalysis

  const ScoreHeaders: seq<string> :=
    ["date", "account_id", "score", "follower_score", "er_trend_score", "frequency_score", "ai_usage_score", "details_json"]
  const CheckinHeaders: seq<string> :=
    ["date", "account_id", "streak", "message", "recommended_time", "recommended_theme"]
  const GoalHeaders: seq<string> :=
    ["id", "account_id", "type", "label", "target", "current", "achieved", "created_at", "achieved_at"]

  const WeekMs: int := 7 * DayMs

  // ------------------------------------------------------------ whose data

  /**
   * The account the retention features act for: the active account's id;
   * without an active account, `account_id` of 設定, else its `user_id`,
   * else 'default'.
   */
  function ActingAccount(account: Option<Accounts.Account>, s: map<string, string>): (id: string)
    ensures account.Some? ==> id == Accounts.AccountIdOf(account.value)
    ensures account.None? ==> id != ""
    ensures account.None? && Settings.Setting(s, "account_id") != "" ==> id == Settings.Setting(s, "account_id")
  {
    match account
    case Some(a) => Accounts.AccountIdOf(a)
    case None => OrDefault(Settings.Setting(s, "account_id"), OrDefault(Settings.Setting(s, "user_id"), "default"))
  }

  // ------------------------------------------------------------ the four sub-scores

  /** From `x * b <= c * b` (or `>=`) with a positive `b`, drop the factor. */
  lemma ScaleBack(x: real, c: real, b: real)
    requires b > 0.0
    ensures x * b <= c * b ==> x <= c
    ensures x * b >= c * b ==> x >= c
  {
    if x > c {
      Analytics.MulMonoStrict(c, x, b);
    }
    if x < c {
      Analytics.MulMonoStrict(x, c, b);
    }
  }

  /** The growth from `base` by `d`, in percent. */
  function Pct(d: int, base: int): real
    requires base > 0
  {
    d as real / base as real * 100.0
  }

  lemma PctTimesBase(d: int, base: int)
    requires base > 0
    ensures Pct(d, base) * base as real == d as real * 100.0
  {
  }

  lemma PctBounds(d: int, base: int, c: real)
    requires base > 0
    ensures d as real * 100.0 <= c * base as real ==> Pct(d, base) <= c
    ensures d as real * 100.0 >= c * base as real ==> Pct(d, base) >= c
  {
    PctTimesBase(d, base);
    ScaleBack(Pct(d, base), c, base as real);
  }

  lemma PctMono(d1: int, d2: int, base: int)
    requires base > 0 && d1 <= d2
    ensures Pct(d1, base) <= Pct(d2, base)
  {
    PctTimesBase(d1, base);
    PctTimesBase(d2, base);
    assert d1 as real * 100.0 <= d2 as real * 100.0;
    ScaleBack(Pct(d1, base), Pct(d2, base), base as real);
  }

  /**
   * Follower sub-score: the week's growth from `base` to `latest` in
   * percent, mapped linearly from -2 % (0) to +5 % (25) and clamped; 12
   * without a baseline but with a count, else 0.
   */
  function FollowerScore(latest: int, base: int): (r: int)
    ensures 0 <= r <= 25
    ensures base <= 0 && latest > 0 ==> r == 12
    ensures base <= 0 && latest <= 0 ==> r == 0
  {
    if base > 0 then Clamp(0, 25, Round((Pct(latest - base, base) + 2.0) / 7.0 * 25.0))
    else if latest > 0 then 12
    else 0
  }

  /** The ends of the follower scale: -2 % or worse scores 0, +5 % or better 25, no change 7. */
  lemma FollowerScoreScale(latest: int, base: int)
    requires base > 0
    ensures 100 * (latest - base) <= -2 * base ==> FollowerScore(latest, base) == 0
    ensures 100 * (latest - base) >= 5 * base ==> FollowerScore(latest, base) == 25
    ensures latest == base ==> FollowerScore(latest, base) == 7
  {
    PctBounds(latest - base, base, -2.0);
    PctBounds(latest - base, base, 5.0);
    assert latest == base ==> Pct(latest - base, base) == 0.0;
  }

  /** More followers never lower the follower sub-score. */
  lemma FollowerScoreMonotone(latest1: int, latest2: int, base: int)
    requires latest1 <= latest2
    ensures FollowerScore(latest1, base) <= FollowerScore(latest2, base)
  {
    if base > 0 {
      PctMono(latest1 - base, latest2 - base, base);
      RoundMono((Pct(latest1 - base, base) + 2.0) / 7.0 * 25.0, (Pct(latest2 - base, base) + 2.0) / 7.0 * 25.0);
    }
  }

  /**
   * ER-trend sub-score from this week's rate and the week before's (both in
   * percent): the change mapped from -2 points (0) to +2 points (25); with
   * no earlier rate, this week's rate mapped from 0 % to 6 %; else 0.
   */
  function ErTrendScore(thisEr: real, prevEr: real): (r: int)
    ensures 0 <= r <= 25
    ensures prevEr > 0.0 && thisEr <= prevEr - 2.0 ==> r == 0
    ensures prevEr > 0.0 && thisEr >= prevEr + 2.0 ==> r == 25
    ensures prevEr > 0.0 && thisEr == prevEr ==> r == 13
    ensures prevEr <= 0.0 && thisEr >= 6.0 ==> r == 25
    ensures prevEr <= 0.0 && thisEr <= 0.0 ==> r == 0
  {
    if prevEr > 0.0 then Clamp(0, 25, Round((thisEr - prevEr + 2.0) / 4.0 * 25.0))
    else if thisEr > 0.0 then Min(25, Round(thisEr / 6.0 * 25.0))
    else 0
  }

  /** A better rate this week never lowers the ER-trend sub-score. */
  lemma ErTrendMonotone(er1: real, er2: real, prevEr: real)
    requires er1 <= er2
    ensures ErTrendScore(er1, prevEr) <= ErTrendScore(er2, prevEr)
  {
    if prevEr > 0.0 {
      RoundMono((er1 - prevEr + 2.0) / 4.0 * 25.0, (er2 - prevEr + 2.0) / 4.0 * 25.0);
    } else {
      RoundMono(er1 / 6.0 * 25.0, er2 / 6.0 * 25.0);
    }
  }

  /** Frequency sub-score: posts in the last 7 days, 0 for none to 25 for 7 or more. */
  function FrequencyScore(posts: nat): (r: int)
    ensures 0 <= r <= 25
    ensures posts >= 7 ==> r == 25
    ensures posts == 0 ==> r == 0
  {
    Min(25, Round(posts as real / 7.0 * 25.0))
  }

  /** AI sub-score: generations in the last 7 days, 0 for none to 25 for 10 or more. */
  function AiUsageScore(uses: nat): (r: int)
    ensures 0 <= r <= 25
    ensures uses >= 10 ==> r == 25
    ensures uses == 0 ==> r == 0
  {
    Min(25, Round(uses as real / 10.0 * 25.0))
  }

  /** More posts and more generations never lower their sub-scores. */
  lemma CountScoresMonotone(n1: nat, n2: nat)
    requires n1 <= n2
    ensures FrequencyScore(n1) <= FrequencyScore(n2)
    ensures AiUsageScore(n1) <= AiUsageScore(n2)
  {
    RoundMono(n1 as real / 7.0 * 25.0, n2 as real / 7.0 * 25.0);
    RoundMono(n1 as real / 10.0 * 25.0, n2 as real / 10.0 * 25.0);
  }

  datatype Breakdown = Breakdown(follower: int, erTrend: int, frequency: int, aiUsage: int)

  const NoBreakdown := Breakdown(0, 0, 0, 0)

  function Total(b: Breakdown): int
  {
    b.follower + b.erTrend + b.frequency + b.aiUsage
  }

  // ------------------------------------------------------------ the inputs of the sub-scores

  /** A follower row of the account dated at or after `since`; without an instant, none is. */
  function InFollowerWindow(accountId: string, since: Option<int>): FollowerRow -> bool
  {
    (r: FollowerRow) => r.accountId == accountId && since.Some? && r.date.Some? && r.date.value.ms >= since.value
  }

  function Counts(rows: seq<FollowerRow>): (c: seq<int>)
    ensures |c| == |rows|
    ensures forall i :: 0 <= i < |rows| ==> c[i] == rows[i].count
  {
    if |rows| == 0 then [] else Counts(rows[..|rows| - 1]) + [rows[|rows| - 1].count]
  }

  function LastOrZero(s: seq<int>): int
  {
    if |s| == 0 then 0 else s[|s| - 1]
  }

  /** What the follower scan keeps: the baseline (first non-zero count in the window) and the latest count. */
  datatype Span = Span(first: int, latest: int)

  function FollowerSpan(rows: seq<FollowerRow>, accountId: string, since: Option<int>): Span
  {
    var c := Counts(Filter(rows, InFollowerWindow(accountId, since)));
    Span(FirstNonZero(c), LastOrZero(c))
  }

  /**
   * One more row in the scan: a row inside the window becomes the latest
   * count, and the baseline too while there is none.
   */
  lemma SpanStep(rows: seq<FollowerRow>, x: FollowerRow, accountId: string, since: Option<int>)
    ensures var w := FollowerSpan(rows, accountId, since);
      FollowerSpan(rows + [x], accountId, since)
        == if InFollowerWindow(accountId, since)(x) then Span(if w.first != 0 then w.first else x.count, x.count) else w
  {
    var keep := InFollowerWindow(accountId, since);
    FilterSnoc(rows, x, keep);
    var sel := Filter(rows, keep);
    if keep(x) {
      assert (sel + [x])[..|sel|] == sel;
      var c := Counts(sel);
      assert Counts(sel + [x]) == c + [x.count];
      FirstNonZeroSnoc(c, x.count);
      assert LastOrZero(c + [x.count]) == x.count;
      assert FollowerSpan(rows + [x], accountId, since) == Span(FirstNonZero(c + [x.count]), x.count);
    } else {
      assert Filter(rows + [x], keep) == sel;
    }
  }

  /** Rows outside the window (other accounts, earlier dates, no date) do not move either count. */
  lemma SpanIgnoresOutside(rows: seq<FollowerRow>, other: seq<FollowerRow>, accountId: string, since: Option<int>)
    requires forall i :: 0 <= i < |other| ==> !InFollowerWindow(accountId, since)(other[i])
    ensures FollowerSpan(rows + other, accountId, since) == FollowerSpan(rows, accountId, since)
  {
    var keep := InFollowerWindow(accountId, since);
    FilterConcat(rows, other, keep);
    FilterNone(other, keep);
    assert Filter(rows, keep) + [] == Filter(rows, keep);
  }

  /** The follower scan of `calculateGrowthScore` and `getGoals`. */
  method ScanFollowers(rows: seq<FollowerRow>, accountId: string, since: Option<int>) returns (w: Span)
    ensures w == FollowerSpan(rows, accountId, since)
  {
    w := Span(0, 0);
    var i := 0;
    while i < |rows|
      invariant 0 <= i <= |rows|
      invariant w == FollowerSpan(rows[..i], accountId, since)
    {
      SpanStep(rows[..i], rows[i], accountId, since);
      assert rows[..i + 1] == rows[..i] + [rows[i]];
      var r := rows[i];
      if r.accountId == accountId && since.Some? && r.date.Some? && r.date.value.ms >= since.value {
        if w.first == 0 {
          w := w.(first := r.count);
        }
        w := w.(latest := r.count);
      }
      i := i + 1;
    }
    assert rows[..i] == rows;
  }

  /** What `getAnalyticsData(ss, days)` returns (see Analytics.GetAnalyticsData). */
  function PeriodView(present: bool, rows: seq<PostRow>, accountId: string, days: nat, nowMs: int): Analytics.AnalyticsView
  {
    if !present || |rows| == 0 then Analytics.AnalyticsView([], None)
    else Analytics.ViewOf(Filter(rows, Analytics.InWindow(accountId, Analytics.Cutoff(Some(days), nowMs))))
  }

  /** The period's average rate in percent; 0 for a missing summary. */
  function AverageEr(v: Analytics.AnalyticsView): real
  {
    if v.summary.Some? then v.summary.value.avgErCenti as real / 100.0 else 0.0
  }

  function PostCount(v: Analytics.AnalyticsView): nat
  {
    if v.summary.Some? then v.summary.value.totalPosts else 0
  }

  /** A post dated before `cutoff`; one without a date is not. */
  function OlderThan(cutoff: int): PostRow -> bool
  {
    (p: PostRow) => p.timestamp.Some? && p.timestamp.value.ms < cutoff
  }

  /** The aggregate rate (percent) of the posts dated before `cutoff`; 0 without any or without views. */
  function PrevEr(posts: seq<PostRow>, cutoff: int): real
  {
    var older := Filter(posts, OlderThan(cutoff));
    var t := Analytics.SumMetrics(older);
    if |older| > 0 && t.views > 0 then Analytics.Engagement(t) as real / t.views as real * 100.0 else 0.0
  }

  /** Posts of the current week do not enter the earlier week's rate. */
  lemma PrevErIgnoresRecent(older: seq<PostRow>, recent: seq<PostRow>, cutoff: int)
    requires forall i :: 0 <= i < |recent| ==> !OlderThan(cutoff)(recent[i])
    ensures PrevEr(older + recent, cutoff) == PrevEr(older, cutoff)
  {
    FilterConcat(older, recent, OlderThan(cutoff));
    FilterNone(recent, OlderThan(cutoff));
    assert Filter(older, OlderThan(cutoff)) + [] == Filter(older, OlderThan(cutoff));
  }

  /** The summing loop over the earlier posts. */
  method PreviousEr(posts: seq<PostRow>, cutoff: int) returns (r: real)
    ensures r == PrevEr(posts, cutoff)
  {
    var older: seq<PostRow> := [];
    var totals := ZeroMetrics;
    var i := 0;
    while i < |posts|
      invariant 0 <= i <= |posts|
      invariant older == Filter(posts[..i], OlderThan(cutoff))
      invariant totals == Analytics.SumMetrics(older)
    {
      FilterSnoc(posts[..i], posts[i], OlderThan(cutoff));
      assert posts[..i + 1] == posts[..i] + [posts[i]];
      var p := posts[i];
      if p.timestamp.Some? && p.timestamp.value.ms < cutoff {
        assert (older + [p])[..|older|] == older;
        older := older + [p];
        totals := Analytics.AddMetrics(totals, p.metrics);
      }
      i := i + 1;
    }
    assert posts[..i] == posts;
    r := 0.0;
    if |older| > 0 && totals.views > 0 {
      r := Analytics.Engagement(totals) as real / totals.views as real * 100.0;
    }
  }

  /** A log row counted for the AI sub-score: since `since`, for the account or for no account. */
  function AiCounted(accountId: string, since: int): AiLogRow -> bool
  {
    (r: AiLogRow) => r.at >= since && (r.accountId == "" || r.accountId == accountId)
  }

  method CountAiUses(rows: seq<AiLogRow>, accountId: string, since: int) returns (n: nat)
    ensures n == Count(rows, AiCounted(accountId, since))
  {
    n := 0;
    var i := 0;
    while i < |rows|
      invariant 0 <= i <= |rows|
      invariant n == Count(rows[..i], AiCounted(accountId, since))
    {
      FilterSnoc(rows[..i], rows[i], AiCounted(accountId, since));
      assert rows[..i + 1] == rows[..i] + [rows[i]];
      if rows[i].at >= since && (rows[i].accountId == "" || rows[i].accountId == accountId) {
        n := n + 1;
      }
      i := i + 1;
    }
    assert rows[..i] == rows;
  }

  /**
   * The four sub-scores of `accountId` at instant `nowMs`; the post
   * listings are read for `viewerId`. Each lies in 0..25, so the total in
   * 0..100.
   */
  function BreakdownOf(followers: seq<FollowerRow>, postsPresent: bool, posts: seq<PostRow>, aiLog: seq<AiLogRow>,
                       accountId: string, viewerId: string, nowMs: int): (b: Breakdown)
    ensures 0 <= b.follower <= 25 && 0 <= b.erTrend <= 25 && 0 <= b.frequency <= 25 && 0 <= b.aiUsage <= 25
    ensures 0 <= Total(b) <= 100
  {
    var span := FollowerSpan(followers, accountId, Some(nowMs - WeekMs));
    var week := PeriodView(postsPresent, posts, viewerId, 7, nowMs);
    var fortnight := PeriodView(postsPresent, posts, viewerId, 14, nowMs);
    Breakdown(FollowerScore(span.latest, span.first),
              ErTrendScore(AverageEr(week), PrevEr(fortnight.posts, nowMs - WeekMs)),
              FrequencyScore(PostCount(week)),
              AiUsageScore(Count(aiLog, AiCounted(accountId, nowMs - WeekMs))))
  }

  // ------------------------------------------------------------ one score row per day

  /** A score row of the account dated on `day`. */
  function SameDay(accountId: string, day: int): ScoreRow -> bool
  {
    (r: ScoreRow) => r.date.Some? && r.date.value.day == day && r.accountId == accountId
  }

  /**
   * The save: the first row of the account dated today is overwritten,
   * else the row is appended. Every other row stays where it was.
   */
  function Upserted(rows: seq<ScoreRow>, row: ScoreRow, day: int): (r: seq<ScoreRow>)
    ensures |r| == |rows| || |r| == |rows| + 1
    ensures row in r
    ensures forall i :: 0 <= i < |rows| && !SameDay(row.accountId, day)(rows[i]) ==> r[i] == rows[i]
  {
    match FirstWhere(rows, SameDay(row.accountId, day))
    case Some(k) =>
      assert rows[k := row][k] == row;
      rows[k := row]
    case None =>
      assert (rows + [row])[|rows|] == row;
      rows + [row]
  }

  /**
   * No second row for the same day: after saving today's row there is
   * exactly one when there was at most one, and never more than before.
   */
  lemma UpsertOnePerDay(rows: seq<ScoreRow>, row: ScoreRow, day: int)
    requires SameDay(row.accountId, day)(row)
    ensures Count(Upserted(rows, row, day), SameDay(row.accountId, day)) == Max(1, Count(rows, SameDay(row.accountId, day)))
  {
    var p := SameDay(row.accountId, day);
    match FirstWhere(rows, p)
    case Some(k) =>
      CountUpdate(rows, k, row, p);
      FilterContains(rows, p, k);
    case None =>
      FilterSnoc(rows, row, p);
      FilterNone(rows, p);
  }

  /** A row of the account dated on or before `day`. */
  function OnOrBefore(accountId: string, day: int): ScoreRow -> bool
  {
    (r: ScoreRow) => r.accountId == accountId && r.date.Some? && r.date.value.day <= day
  }

  /** The score of the account's last row dated on or before `day`, else 0. */
  function PreviousScore(rows: seq<ScoreRow>, accountId: string, day: int): int
  {
    match LastWhere(rows, OnOrBefore(accountId, day))
    case Some(i) => rows[i].score
    case None => 0
  }

  lemma {:induction false} LastWhereUnchanged<T>(s: seq<T>, k: nat, x: T, p: T -> bool)
    requires k < |s| && !p(s[k]) && !p(x)
    ensures LastWhere(s[k := x], p) == LastWhere(s, p)
    decreases |s|
  {
    var n := |s| - 1;
    assert s[k := x][..n] == if k == n then s[..n] else s[..n][k := x];
    if k < n && !p(s[n]) {
      LastWhereUnchanged(s[..n], k, x, p);
    }
  }

  /**
   * Reading the previous score before or after saving today's row gives
   * the same value: today's row is never on or before a week ago.
   */
  lemma PreviousIgnoresToday(rows: seq<ScoreRow>, row: ScoreRow, today: int)
    requires SameDay(row.accountId, today)(row)
    ensures PreviousScore(Upserted(rows, row, today), row.accountId, today - 7) == PreviousScore(rows, row.accountId, today - 7)
  {
    var p := OnOrBefore(row.accountId, today - 7);
    match FirstWhere(rows, SameDay(row.accountId, today))
    case Some(k) =>
      LastWhereUnchanged(rows, k, row, p);
    case None =>
      assert (rows + [row])[..|rows|] == rows;
  }

  // ------------------------------------------------------------ calculateGrowthScore / getGrowthScore

  /** `{current, previous, change, breakdown, updatedAt}`. */
  datatype GrowthView = GrowthView(current: int, previous: int, change: int, breakdown: Breakdown, updatedAt: Option<int>)

  function ScoreRowOf(b: Breakdown, accountId: string, now: Stamp): ScoreRow
  {
    ScoreRow(Some(now), accountId, Total(b), b.follower, b.erTrend, b.frequency, b.aiUsage)
  }

  /**
   * `calculateGrowthScore`: computes the four sub-scores, saves today's row
   * (creating 成長スコア when missing) and reports the change against the
   * score of a week ago, read from the rows as they were before the save.
   */
  method CalculateGrowthScore(scores: Sheet<ScoreRow>, followers: Sheet<FollowerRow>, posts: Sheet<PostRow>,
                              aiLog: Sheet<AiLogRow>, account: Option<Accounts.Account>, s: map<string, string>,
                              now: Stamp)
    returns (g: GrowthView)
    modifies scores
    ensures var accountId := ActingAccount(account, s);
      var b := BreakdownOf(RowsIf(old(followers.present), old(followers.rows)), old(posts.present), old(posts.rows),
                           RowsIf(old(aiLog.present), old(aiLog.rows)), accountId, Accounts.ActiveAccountId(account), now.ms);
      var before := RowsIf(old(scores.present), old(scores.rows));
      var previous := PreviousScore(before, accountId, now.day - 7);
      && g == GrowthView(Total(b), previous, Total(b) - previous, b, Some(now.ms))
      && scores.present
      && scores.headers == (if old(scores.present) then old(scores.headers) else ScoreHeaders)
      && scores.rows == Upserted(before, ScoreRowOf(b, accountId, now), now.day)
  {
    var accountId := ActingAccount(account, s);
    var b := ComputeBreakdown(followers, posts, aiLog, accountId, Accounts.ActiveAccountId(account), now.ms);
    var previous := SaveAndCompare(scores, ScoreRowOf(b, accountId, now), accountId, now.day);
    g := GrowthView(Total(b), previous, Total(b) - previous, b, Some(now.ms));
  }

  /**
   * The sheet part of `calculateGrowthScore`: 成長スコア is created when
   * missing, today's row saved, and the score of a week ago read from the
   * rows as they were before the save.
   */
  method SaveAndCompare(scores: Sheet<ScoreRow>, row: ScoreRow, accountId: string, day: int)
    returns (previous: int)
    modifies scores
    ensures var before := RowsIf(old(scores.present), old(scores.rows));
      && previous == PreviousScore(before, accountId, day - 7)
      && scores.present
      && scores.headers == (if old(scores.present) then old(scores.headers) else ScoreHeaders)
      && scores.rows == Upserted(before, row, day)
  {
    if !scores.present {
      scores.Insert(ScoreHeaders);
    }
    var data := scores.rows;
    SaveScore(scores, row, day);
    var last := FindLast(data, OnOrBefore(accountId, day - 7));
    previous := if last.Some? then data[last.value].score else 0;
  }

  /** The four scans and listings behind the sub-scores. */
  method ComputeBreakdown(followers: Sheet<FollowerRow>, posts: Sheet<PostRow>, aiLog: Sheet<AiLogRow>,
                          accountId: string, viewer: string, nowMs: int)
    returns (b: Breakdown)
    ensures b == BreakdownOf(RowsIf(followers.present, followers.rows), posts.present, posts.rows,
                             RowsIf(aiLog.present, aiLog.rows), accountId, viewer, nowMs)
  {
    var since := nowMs - WeekMs;
    var span := Span(0, 0);
    if followers.present && |followers.rows| > 0 {
      span := ScanFollowers(followers.rows, accountId, Some(since));
    }
    assert span == FollowerSpan(RowsIf(followers.present, followers.rows), accountId, Some(since));
    var follower := FollowerScore(span.latest, span.first);

    var week := Analytics.GetAnalyticsData(posts, viewer, Some(7), nowMs);
    var fortnight := Analytics.GetAnalyticsData(posts, viewer, Some(14), nowMs);
    var prevEr := PreviousEr(fortnight.posts, since);
    var erTrend := ErTrendScore(AverageEr(week), prevEr);

    var frequency := FrequencyScore(PostCount(week));

    var uses := 0;
    if aiLog.present && |aiLog.rows| > 0 {
      uses := CountAiUses(aiLog.rows, accountId, since);
    }
    b := Breakdown(follower, erTrend, frequency, AiUsageScore(uses));
  }

  /** Overwrites the first row of the account dated `day`, else appends the row. */
  method SaveScore(scores: Sheet<ScoreRow>, row: ScoreRow, day: int)
    modifies scores
    ensures scores.rows == Upserted(old(scores.rows), row, day)
    ensures scores.present == old(scores.present) && scores.headers == old(scores.headers)
  {
    var existing := FindFirst(scores.rows, SameDay(row.accountId, day));
    if existing.Some? {
      scores.SetRow(existing.value, row);
    } else {
      scores.AppendRows([row]);
    }
  }

  function OwnScore(accountId: string): ScoreRow -> bool
  {
    (r: ScoreRow) => r.accountId == accountId
  }

  /** The instant a row is sorted by; a row without a date sorts as the epoch. */
  function DateKey(r: ScoreRow): int
  {
    if r.date.Some? then r.date.value.ms else 0
  }

  function BreakdownOfRow(r: ScoreRow): Breakdown
  {
    Breakdown(r.followerScore, r.erTrendScore, r.frequencyScore, r.aiUsageScore)
  }

  const NoScore := GrowthView(0, 0, 0, NoBreakdown, None)

  /**
   * `getGrowthScore`: the account's rows, newest first; the newest is the
   * current score, the next one the previous.
   */
  function GrowthViewOf(present: bool, rows: seq<ScoreRow>, accountId: string): GrowthView
  {
    if !present || |rows| == 0 then NoScore
    else
      var sorted := SortDesc(Filter(rows, OwnScore(accountId)), DateKey);
      var current := if |sorted| > 0 then sorted[0].score else 0;
      var previous := if |sorted| > 1 then sorted[1].score else 0;
      GrowthView(current, previous, current - previous,
                 if |sorted| > 0 then BreakdownOfRow(sorted[0]) else NoBreakdown,
                 if |sorted| > 0 && sorted[0].date.Some? then Some(sorted[0].date.value.ms) else None)
  }

  /** The rows of the account, in sheet order. */
  method OwnRows(data: seq<ScoreRow>, accountId: string) returns (own: seq<ScoreRow>)
    ensures own == Filter(data, OwnScore(accountId))
  {
    own := [];
    var i := 0;
    while i < |data|
      invariant 0 <= i <= |data|
      invariant own == Filter(data[..i], OwnScore(accountId))
    {
      FilterSnoc(data[..i], data[i], OwnScore(accountId));
      assert data[..i + 1] == data[..i] + [data[i]];
      if data[i].accountId == accountId {
        own := own + [data[i]];
      }
      i := i + 1;
    }
    assert data[..i] == data;
  }

  method GetGrowthScore(scores: Sheet<ScoreRow>, account: Option<Accounts.Account>, s: map<string, string>)
    returns (g: GrowthView)
    ensures g == GrowthViewOf(scores.present, scores.rows, ActingAccount(account, s))
  {
    var accountId := ActingAccount(account, s);
    if !scores.present || |scores.rows| == 0 {
      return NoScore;
    }
    var own := OwnRows(scores.rows, accountId);
    var sorted := SortDesc(own, DateKey);
    var current := if |sorted| > 0 then sorted[0].score else 0;
    var previous := if |sorted| > 1 then sorted[1].score else 0;
    g := GrowthView(current, previous, current - previous,
                    if |sorted| > 0 then BreakdownOfRow(sorted[0]) else NoBreakdown,
                    if |sorted| > 0 && sorted[0].date.Some? then Some(sorted[0].date.value.ms) else None);
  }

  /**
   * The current score is the account's newest: for every row of the
   * account there is a row of the account, at least as recent, holding the
   * current score.
   */
  lemma CurrentIsNewest(rows: seq<ScoreRow>, accountId: string, i: nat)
    requires i < |rows| && rows[i].accountId == accountId
    ensures exists j :: (0 <= j < |rows| && rows[j].accountId == accountId &&
      rows[j].score == GrowthViewOf(true, rows, accountId).current && DateKey(rows[j]) >= DateKey(rows[i]))
  {
    var own := Filter(rows, OwnScore(accountId));
    var sorted := SortDesc(own, DateKey);
    FilterContains(rows, OwnScore(accountId), i);
    assert rows[i] in multiset(own);
    assert rows[i] in multiset(sorted);
    var m :| 0 <= m < |sorted| && sorted[m] == rows[i];
    assert DateKey(sorted[0]) >= DateKey(sorted[m]);
    assert sorted[0] in multiset(own);
    FilterMember(rows, OwnScore(accountId), sorted[0]);
    var j :| 0 <= j < |rows| && rows[j] == sorted[0];
  }

  // ------------------------------------------------------------ dailyCheckIn

  /** `{streak, todayMessage, recommendedTime, recommendedTheme, alreadyCheckedIn}`; `checkedIn` is always true. */
  datatype CheckIn = CheckIn(streak: int, message: string, recommendedTime: string, recommendedTheme: string,
                             alreadyCheckedIn: bool)

  /** A check-in row of the account dated on `day`. */
  function CheckedInOn(accountId: string, day: int): CheckinRow -> bool
  {
    (r: CheckinRow) => r.date.Some? && r.date.value.day == day && r.accountId == accountId
  }

  /** Today's stored check-in, returned as it is; a streak of 0 reads as 1. */
  function Recalled(r: CheckinRow): CheckIn
  {
    CheckIn(if r.streak == 0 then 1 else r.streak, r.message, r.recommendedTime, r.recommendedTheme, true)
  }

  /** A check-in row of the account dated before `day`. */
  function DatedBefore(accountId: string, day: int): CheckinRow -> bool
  {
    (r: CheckinRow) => r.accountId == accountId && r.date.Some? && r.date.value.day < day
  }

  /**
   * The streak of a new check-in: the account's last row dated before
   * today decides; dated yesterday, its streak plus one; dated earlier, 1;
   * with no such row, 1.
   */
  function Streak(rows: seq<CheckinRow>, accountId: string, today: int): int
  {
    match LastWhere(rows, DatedBefore(accountId, today))
    case Some(i) => if rows[i].date.value.day == today - 1 then rows[i].streak + 1 else 1
    case None => 1
  }

  /** A check-in the day after the last one counts one more day. */
  lemma StreakNextDay(rows: seq<CheckinRow>, row: CheckinRow)
    requires row.date.Some?
    ensures Streak(rows + [row], row.accountId, row.date.value.day + 1) == row.streak + 1
  {
    var t := rows + [row];
    assert t[|t| - 1] == row;
  }

  /** After a missed day the streak starts again at 1. */
  lemma StreakAfterGap(rows: seq<CheckinRow>, row: CheckinRow, today: int)
    requires row.date.Some? && row.date.value.day < today - 1
    ensures Streak(rows + [row], row.accountId, today) == 1
  {
    var t := rows + [row];
    assert t[|t| - 1] == row;
  }

  /** Rows of other accounts and undated rows do not touch the streak. */
  lemma StreakIgnoresOthers(rows: seq<CheckinRow>, row: CheckinRow, accountId: string, today: int)
    requires row.accountId != accountId || row.date.None?
    ensures Streak(rows + [row], accountId, today) == Streak(rows, accountId, today)
  {
    assert (rows + [row])[..|rows|] == rows;
  }

  /**
   * The hour scan over the first `n` hours: the first hour with the
   * strictly highest positive rate and that rate; (21, 0) while no rate is
   * positive.
   */
  function BestUpTo(cells: seq<int>, n: nat): (r: (nat, int))
    requires n <= |cells|
  {
    if n == 0 then (21, 0)
    else
      var prev := BestUpTo(cells, n - 1);
      if cells[n - 1] > prev.1 then (n - 1, cells[n - 1]) else prev
  }

  lemma {:induction false} BestUpToSpec(cells: seq<int>, n: nat)
    requires n <= |cells|
    ensures BestUpTo(cells, n).1 >= 0
    ensures forall j :: 0 <= j < n ==> cells[j] <= BestUpTo(cells, n).1
    ensures BestUpTo(cells, n).1 > 0 ==>
      var h := BestUpTo(cells, n).0;
      h < n && cells[h] == BestUpTo(cells, n).1 && forall j :: 0 <= j < h ==> cells[j] < cells[h]
    ensures BestUpTo(cells, n).1 == 0 ==> BestUpTo(cells, n).0 == 21
  {
    if n > 0 {
      BestUpToSpec(cells, n - 1);
    }
  }

  /** The recommended hour: the scan over today's 24 cells, 21 without a row for today. */
  function BestHour(cells: Option<seq<int>>): nat
  {
    if cells.None? then 21 else BestUpTo(TimeAnalysis.ReadCells(cells.value), 24).0
  }

  /**
   * The recommended hour is the first hour with the highest rate when some
   * rate is positive, else 21.
   */
  lemma BestHourIsFirstMaximum(cells: seq<int>)
    requires |cells| == 24
    ensures (exists j :: 0 <= j < 24 && cells[j] > 0) ==>
      var h := BestHour(Some(cells));
      h < 24 && cells[h] > 0 && (forall j :: 0 <= j < 24 ==> cells[j] <= cells[h])
        && forall j :: 0 <= j < h ==> cells[j] < cells[h]
    ensures (forall j :: 0 <= j < 24 ==> cells[j] <= 0) ==> BestHour(Some(cells)) == 21
  {
    assert TimeAnalysis.ReadCells(cells) == cells;
    BestUpToSpec(cells, 24);
  }

  method PickBestHour(cells: seq<int>) returns (h: nat)
    requires |cells| == 24
    ensures h == BestUpTo(cells, 24).0
  {
    h := 21;
    var maxEr := 0;
    var i := 0;
    while i < 24
      invariant 0 <= i <= 24
      invariant (h, maxEr) == BestUpTo(cells, i)
    {
      if cells[i] > maxEr {
        maxEr := cells[i];
        h := i;
      }
      i := i + 1;
    }
  }

  /** `(h < 10 ? '0' : '') + h + ':00'`. */
  function HourLabel(h: nat): string
  {
    (if h < 10 then "0" else "") + NatToString(h) + ":00"
  }

  /** The two digits of an hour label. */
  lemma HourDigits(h: nat)
    requires h < 24
    ensures var d := (if h < 10 then "0" else "") + NatToString(h);
      |d| == 2 && IsDigit(d[0]) && IsDigit(d[1]) && DigitsValue(d) == h
  {
    var d := (if h < 10 then "0" else "") + NatToString(h);
    if h < 10 {
      assert d == ['0', DigitChar(h)];
      assert d[..1] == ['0'];
      assert ['0'][..0] == [];
    } else {
      assert NatToString(h) == NatToString(h / 10) + [DigitChar(h % 10)];
      assert d == [DigitChar(h / 10), DigitChar(h % 10)];
      assert d[..1] == [DigitChar(h / 10)];
      assert [DigitChar(h / 10)][..0] == [];
      assert DigitChar(h / 10) as int - '0' as int == h / 10;
      assert DigitChar(h % 10) as int - '0' as int == h % 10;
      assert DigitsValue(d[..1]) == h / 10;
      assert DigitsValue(d) == (h / 10) * 10 + h % 10;
    }
  }

  /** An hour label has five characters and reads back as its hour. */
  lemma HourLabelReadsBack(h: nat)
    requires h < 24
    ensures |HourLabel(h)| == 5
    ensures ParseInt(HourLabel(h)) == Some(h)
  {
    var d := (if h < 10 then "0" else "") + NatToString(h);
    HourDigits(h);
    assert HourLabel(h) == d + ":00";
    ParseIntOfDigitsThen(d, ":00");
  }

  /** The five fallback messages (one is chosen at random). */
  function Fallbacks(bestHour: nat): seq<string>
  {
    ["今日も一歩前進！投稿を1つ書いてみましょう。",
     "継続は力なり。今日も分析をチェック！",
     NatToString(bestHour) + "時台の投稿がおすすめです。テーマを考えてみましょう。",
     "昨日のデータを振り返って、今日の投稿に活かそう！",
     "フォロワーとの対話を意識した投稿をしてみましょう。"]
  }

  const FallbackTheme := "日常のTips共有"

  /**
   * A new check-in: the generated message and theme when the generation
   * answered, else fallback number `pick` with the stock theme.
   */
  function NewCheckIn(streak: int, bestHour: nat, advice: Option<(string, string)>, pick: nat): CheckIn
    requires pick < 5
  {
    match advice
    case Some(a) => CheckIn(streak, a.0, HourLabel(bestHour), a.1, false)
    case None => CheckIn(streak, Fallbacks(bestHour)[pick], HourLabel(bestHour), FallbackTheme, false)
  }

  /** The matrix `getTimeAnalysisData` returns (see TimeAnalysis.GetTimeAnalysisData). */
  function TimeMatrix(present: bool, rows: seq<TimeRow>, accountId: string): map<string, seq<int>>
  {
    if present then TimeAnalysis.TimeDataOf(rows, accountId) else map[]
  }

  /** Today's weekday row of the matrix, if any. */
  function TodayCells(matrix: map<string, seq<int>>, day: int): Option<seq<int>>
  {
    var name := TimeAnalysis.DayNames[Weekday(day)];
    if name in matrix then Some(matrix[name]) else None
  }

  function CheckinRowOf(c: CheckIn, accountId: string, now: Stamp): CheckinRow
  {
    CheckinRow(Some(now), accountId, c.streak, c.message, c.recommendedTime, c.recommendedTheme)
  }

  /**
   * `dailyCheckIn` (creating チェックイン when missing): today's stored
   * check-in of the account is returned without a write; otherwise the new
   * check-in, with its streak, recommended hour and message, is appended
   * and returned. `advice` is what the generation answered (none when it
   * failed); `pick` is the random fallback index.
   */
  method DailyCheckIn(sheet: Sheet<CheckinRow>, timeSheet: Sheet<TimeRow>, account: Option<Accounts.Account>,
                      s: map<string, string>, now: Stamp, advice: Option<(string, string)>, pick: nat)
    returns (c: CheckIn)
    requires pick < 5
    modifies sheet
    ensures sheet.present
    ensures sheet.headers == if old(sheet.present) then old(sheet.headers) else CheckinHeaders
    ensures var before := RowsIf(old(sheet.present), old(sheet.rows));
      var accountId := ActingAccount(account, s);
      var today := FirstWhere(before, CheckedInOn(accountId, now.day));
      && (today.Some? ==> c == Recalled(before[today.value]) && sheet.rows == before)
      && (today.None? ==>
            var hour := BestHour(TodayCells(TimeMatrix(timeSheet.present, timeSheet.rows, Accounts.ActiveAccountId(account)), now.day));
            && c == NewCheckIn(Streak(before, accountId, now.day), hour, advice, pick)
            && sheet.rows == before + [CheckinRowOf(c, accountId, now)])
  {
    var accountId := ActingAccount(account, s);
    if !sheet.present {
      sheet.Insert(CheckinHeaders);
    }
    var data := sheet.rows;
    var today := FindFirst(data, CheckedInOn(accountId, now.day));
    if today.Some? {
      return Recalled(data[today.value]);
    }

    var streak := ScanStreak(data, accountId, now.day);
    var bestHour := RecommendedHour(timeSheet, Accounts.ActiveAccountId(account), now.day);
    c := NewCheckIn(streak, bestHour, advice, pick);
    sheet.AppendRows([CheckinRowOf(c, accountId, now)]);
  }

  /** The backward scan for the streak. */
  method ScanStreak(rows: seq<CheckinRow>, accountId: string, today: int) returns (n: int)
    ensures n == Streak(rows, accountId, today)
  {
    var last := FindLast(rows, DatedBefore(accountId, today));
    n := 1;
    if last.Some? && rows[last.value].date.value.day == today - 1 {
      n := rows[last.value].streak + 1;
    }
  }

  /** The recommended hour from the time-of-day matrix. */
  method RecommendedHour(timeSheet: Sheet<TimeRow>, viewerId: string, day: int) returns (h: nat)
    ensures h == BestHour(TodayCells(TimeMatrix(timeSheet.present, timeSheet.rows, viewerId), day))
  {
    var matrix, hasData := TimeAnalysis.GetTimeAnalysisData(timeSheet, viewerId);
    var cells := TodayCells(matrix, day);
    h := 21;
    if cells.Some? {
      h := PickBestHour(TimeAnalysis.ReadCells(cells.value));
    }
  }

  // ------------------------------------------------------------ goals

  /** A goal as `getGoals` lists it, with its progress. */
  datatype GoalView = GoalView(id: string, goalType: string, labelText: string, target: int, current: real,
                               createdAt: Option<int>, percentage: int, achieved: bool, justAchieved: bool)

  /** A goal of the account not yet marked achieved. */
  function OpenGoal(accountId: string): GoalRow -> bool
  {
    (g: GoalRow) => g.accountId == accountId && !g.achieved
  }

  /** What progress is measured against: the follower rows (none for a missing or empty sheet) and two listings. */
  datatype GoalInputs = GoalInputs(followers: Option<seq<FollowerRow>>, month: Analytics.AnalyticsView,
                                   week: Analytics.AnalyticsView)

  function GoalInputsOf(followersPresent: bool, followerRows: seq<FollowerRow>, postsPresent: bool,
                        postRows: seq<PostRow>, viewerId: string, nowMs: int): GoalInputs
  {
    GoalInputs(if followersPresent && |followerRows| > 0 then Some(followerRows) else None,
               PeriodView(postsPresent, postRows, viewerId, 30, nowMs),
               PeriodView(postsPresent, postRows, viewerId, 7, nowMs))
  }

  /** The instant a goal's follower count is measured from: midnight UTC of its creation date. */
  function GoalStart(g: GoalRow): Option<int>
  {
    if g.createdAt.Some? then Some(g.createdAt.value.day * DayMs) else None
  }

  /**
   * The current value of a goal: followers gained since it was set, posts
   * in the last 30 days, or the week's rate rounded to one decimal; any
   * other type keeps its stored value.
   */
  function Progress(g: GoalRow, accountId: string, inputs: GoalInputs): real
  {
    if g.goalType == "follower_increase" then
      if inputs.followers.Some? then
        var w := FollowerSpan(inputs.followers.value, accountId, GoalStart(g));
        (w.latest - w.first) as real
      else g.current as real
    else if g.goalType == "post_count" then PostCount(inputs.month) as real
    else if g.goalType == "er_target" then
      if inputs.week.summary.Some? then Round(inputs.week.summary.value.avgErCenti as real / 10.0) as real / 10.0 else 0.0
    else g.current as real
  }

  /** The percentage reached: `min(100, round(current / target * 100))`, 0 without a positive target. */
  function Percentage(current: real, target: int): (p: int)
    ensures p <= 100
    ensures target <= 0 ==> p == 0
  {
    if target > 0 then Min(100, Round(current / target as real * 100.0)) else 0
  }

  /** A goal counts as reached exactly when `current / target` is at least 99.5 %. */
  lemma GoalReachedIff(current: real, target: int)
    requires target > 0
    ensures Percentage(current, target) == 100 <==> current * 200.0 >= target as real * 199.0
    ensures current >= 0.0 ==> Percentage(current, target) >= 0
  {
    var t := target as real;
    var x := current / t * 100.0;
    var p := Round(x);
    assert Percentage(current, target) == Min(100, p);
    assert p >= 100 <==> x >= 99.5;
    assert x * t == current * 100.0;
    if x >= 99.5 {
      Analytics.MulMono(99.5, x, t);
      assert current * 100.0 >= 99.5 * t;
    } else {
      Analytics.MulMonoStrict(x, 99.5, t);
      assert current * 100.0 < 99.5 * t;
    }
    if current >= 0.0 {
      assert x >= 0.0 by {
        ScaleBack(x, 0.0, t);
      }
    }
  }

  function GoalViewOf(g: GoalRow, accountId: string, inputs: GoalInputs): GoalView
  {
    var current := Progress(g, accountId, inputs);
    var p := Percentage(current, g.target);
    GoalView(g.id, g.goalType, g.labelText, g.target, current,
             if g.createdAt.Some? then Some(g.createdAt.value.day) else None, p, p >= 100, p >= 100)
  }

  function GoalViews(goals: seq<GoalRow>, accountId: string, inputs: GoalInputs): (r: seq<GoalView>)
    ensures |r| == |goals|
    ensures forall i :: 0 <= i < |goals| ==> r[i] == GoalViewOf(goals[i], accountId, inputs)
  {
    if |goals| == 0 then []
    else GoalViews(goals[..|goals| - 1], accountId, inputs) + [GoalViewOf(goals[|goals| - 1], accountId, inputs)]
  }

  /** `getGoals`: the account's open goals in sheet order, each with its progress. */
  function GoalsOf(present: bool, rows: seq<GoalRow>, accountId: string, inputs: GoalInputs): seq<GoalView>
  {
    if !present || |rows| == 0 then [] else GoalViews(Filter(rows, OpenGoal(accountId)), accountId, inputs)
  }

  /**
   * The listing is exactly the open goals of the account: every goal listed
   * is an open goal of the account, every open goal of the account is
   * listed, and a goal is flagged just achieved exactly when its progress
   * reaches 99.5 % of a positive target.
   */
  lemma GoalsListed(rows: seq<GoalRow>, accountId: string, inputs: GoalInputs)
    ensures forall v :: v in GoalsOf(true, rows, accountId, inputs) ==>
      exists g :: g in rows && g.accountId == accountId && !g.achieved && v == GoalViewOf(g, accountId, inputs)
    ensures forall g :: g in rows && g.accountId == accountId && !g.achieved ==>
      GoalViewOf(g, accountId, inputs) in GoalsOf(true, rows, accountId, inputs)
    ensures forall g :: g in rows ==> (GoalViewOf(g, accountId, inputs).justAchieved <==>
      g.target > 0 && Progress(g, accountId, inputs) * 200.0 >= g.target as real * 199.0)
  {
    var sel := Filter(rows, OpenGoal(accountId));
    var views := GoalsOf(true, rows, accountId, inputs);
    forall v | v in views
      ensures exists g :: g in rows && g.accountId == accountId && !g.achieved && v == GoalViewOf(g, accountId, inputs)
    {
      var i :| 0 <= i < |views| && views[i] == v;
      FilterMember(rows, OpenGoal(accountId), sel[i]);
    }
    forall g | g in rows && g.accountId == accountId && !g.achieved
      ensures GoalViewOf(g, accountId, inputs) in views
    {
      var k :| 0 <= k < |rows| && rows[k] == g;
      FilterContains(rows, OpenGoal(accountId), k);
      var i :| 0 <= i < |sel| && sel[i] == g;
      assert views[i] == GoalViewOf(g, accountId, inputs);
    }
    forall g | g in rows
      ensures GoalViewOf(g, accountId, inputs).justAchieved <==>
        g.target > 0 && Progress(g, accountId, inputs) * 200.0 >= g.target as real * 199.0
    {
      if g.target > 0 {
        GoalReachedIff(Progress(g, accountId, inputs), g.target);
      }
    }
  }

  /** The follower count gained since the goal was set; the stored value without follower rows. */
  function FollowerProgress(g: GoalRow, accountId: string, followers: Option<seq<FollowerRow>>): real
  {
    if followers.Some? then
      var w := FollowerSpan(followers.value, accountId, GoalStart(g));
      (w.latest - w.first) as real
    else g.current as real
  }

  /** The week's rate rounded to one decimal: `Math.round(rate * 10) / 10`. */
  function RoundedEr(week: Analytics.AnalyticsView): real
  {
    if week.summary.Some? then Round(week.summary.value.avgErCenti as real / 10.0) as real / 10.0 else 0.0
  }

  lemma ProgressByType(g: GoalRow, accountId: string, inputs: GoalInputs)
    ensures Progress(g, accountId, inputs) ==
      if g.goalType == "follower_increase" then FollowerProgress(g, accountId, inputs.followers)
      else if g.goalType == "post_count" then PostCount(inputs.month) as real
      else if g.goalType == "er_target" then RoundedEr(inputs.week)
      else g.current as real
  {
  }

  /** The follower gain since the goal started, scanned from the follower sheet. */
  method ScanProgress(g: GoalRow, accountId: string, followers: Sheet<FollowerRow>) returns (current: real)
    ensures current == FollowerProgress(g, accountId, if followers.present && |followers.rows| > 0 then Some(followers.rows) else None)
  {
    current := g.current as real;
    if followers.present && |followers.rows| > 0 {
      var w := ScanFollowers(followers.rows, accountId, GoalStart(g));
      current := (w.latest - w.first) as real;
    }
  }

  /** The first loop of `getGoals`: the account's goals not yet achieved. */
  method CollectOpenGoals(data: seq<GoalRow>, accountId: string) returns (open: seq<GoalRow>)
    ensures open == Filter(data, OpenGoal(accountId))
  {
    open := [];
    var i := 0;
    while i < |data|
      invariant 0 <= i <= |data|
      invariant open == Filter(data[..i], OpenGoal(accountId))
    {
      FilterSnoc(data[..i], data[i], OpenGoal(accountId));
      assert data[..i + 1] == data[..i] + [data[i]];
      if data[i].accountId == accountId && !data[i].achieved {
        open := open + [data[i]];
      }
      i := i + 1;
    }
    assert data[..i] == data;
  }

  /** The progress of one goal, as the `forEach` of `getGoals` computes it. */
  method ProgressOfGoal(g: GoalRow, accountId: string, followers: Sheet<FollowerRow>, posts: Sheet<PostRow>,
                        viewerId: string, nowMs: int)
    returns (current: real)
    ensures current == Progress(g, accountId, GoalInputsOf(followers.present, followers.rows, posts.present, posts.rows, viewerId, nowMs))
  {
    ghost var inputs := GoalInputsOf(followers.present, followers.rows, posts.present, posts.rows, viewerId, nowMs);
    ProgressByType(g, accountId, inputs);
    if g.goalType == "follower_increase" {
      current := ScanProgress(g, accountId, followers);
    } else if g.goalType == "post_count" {
      var month := Analytics.GetAnalyticsData(posts, viewerId, Some(30), nowMs);
      assert month == inputs.month;
      current := PostCount(month) as real;
    } else if g.goalType == "er_target" {
      var week := Analytics.GetAnalyticsData(posts, viewerId, Some(7), nowMs);
      assert week == inputs.week;
      current := RoundedEr(week);
    } else {
      current := g.current as real;
    }
  }

  /** One goal's view: its progress and the percentage of the target reached. */
  method GoalProgress(g: GoalRow, accountId: string, followers: Sheet<FollowerRow>, posts: Sheet<PostRow>,
                      viewerId: string, nowMs: int)
    returns (v: GoalView)
    ensures v == GoalViewOf(g, accountId, GoalInputsOf(followers.present, followers.rows, posts.present, posts.rows, viewerId, nowMs))
  {
    var current := ProgressOfGoal(g, accountId, followers, posts, viewerId, nowMs);
    var p := Percentage(current, g.target);
    v := GoalView(g.id, g.goalType, g.labelText, g.target, current,
                  if g.createdAt.Some? then Some(g.createdAt.value.day) else None, p, p >= 100, p >= 100);
  }

  lemma GoalViewsSnoc(goals: seq<GoalRow>, j: nat, accountId: string, inputs: GoalInputs)
    requires j < |goals|
    ensures GoalViews(goals[..j + 1], accountId, inputs) == GoalViews(goals[..j], accountId, inputs) + [GoalViewOf(goals[j], accountId, inputs)]
  {
    assert goals[..j + 1][..j] == goals[..j];
  }

  /** The views of the given goals, in order. */
  method ViewGoals(open: seq<GoalRow>, accountId: string, followers: Sheet<FollowerRow>, posts: Sheet<PostRow>,
                   viewerId: string, nowMs: int)
    returns (r: seq<GoalView>)
    ensures r == GoalViews(open, accountId, GoalInputsOf(followers.present, followers.rows, posts.present, posts.rows, viewerId, nowMs))
  {
    ghost var inputs := GoalInputsOf(followers.present, followers.rows, posts.present, posts.rows, viewerId, nowMs);
    r := [];
    var j := 0;
    while j < |open|
      invariant 0 <= j <= |open|
      invariant r == GoalViews(open[..j], accountId, inputs)
    {
      var v := GoalProgress(open[j], accountId, followers, posts, viewerId, nowMs);
      GoalViewsSnoc(open, j, accountId, inputs);
      r := r + [v];
      j := j + 1;
    }
    assert open[..j] == open;
  }

  method GetGoals(goals: Sheet<GoalRow>, followers: Sheet<FollowerRow>, posts: Sheet<PostRow>,
                  account: Option<Accounts.Account>, s: map<string, string>, nowMs: int)
    returns (r: seq<GoalView>)
    ensures r == GoalsOf(goals.present, goals.rows, ActingAccount(account, s),
                         GoalInputsOf(followers.present, followers.rows, posts.present, posts.rows, Accounts.ActiveAccountId(account), nowMs))
  {
    var accountId := ActingAccount(account, s);
    if !goals.present || |goals.rows| == 0 {
      return [];
    }
    var open := CollectOpenGoals(goals.rows, accountId);
    r := ViewGoals(open, accountId, followers, posts, Accounts.ActiveAccountId(account), nowMs);
  }


  /** The request of `setGoal`. */
  datatype GoalRequest = GoalRequest(goalType: string, labelText: string, target: string)

  /** `parseInt(target) || 0`. */
  function GoalTarget(t: string): int
  {
    match ParseInt(t)
    case Some(n) => n
    case None => 0
  }

  /** A target written out as digits is read back as itself. */
  lemma GoalTargetOfString(n: int)
    ensures GoalTarget(IntToString(n)) == n
  {
    ParseIntOfString(n);
  }

  /** The label a goal gets when none is given, by type. */
  function DefaultLabel(goalType: string, target: int): (r: string)
    ensures r != ""
  {
    if goalType == "follower_increase" then "今月の目標: フォロワー+" + IntToString(target)
    else if goalType == "post_count" then "今月の目標: " + IntToString(target) + "投稿"
    else if goalType == "er_target" then "目標ER: " + IntToString(target) + "%"
    else "目標: " + IntToString(target)
  }

  /**
   * The row `setGoal` appends: an open goal of the account with progress 0,
   * an id of 'goal_' and the first 8 characters of `uuid`, type
   * follower_increase by default and a label by type by default.
   */
  function NewGoal(req: GoalRequest, accountId: string, uuid: string, now: Stamp): (g: GoalRow)
    ensures g.accountId == accountId && !g.achieved && g.current == 0 && g.createdAt == Some(now)
    ensures g.goalType != "" && g.labelText != ""
    ensures StartsWith(g.id, "goal_") && |g.id| == 5 + Min(8, |uuid|)
    ensures req.labelText != "" ==> g.labelText == req.labelText
  {
    var goalType := OrDefault(req.goalType, "follower_increase");
    var target := GoalTarget(req.target);
    GoalRow("goal_" + Take(uuid, 8), accountId, goalType, OrDefault(req.labelText, DefaultLabel(goalType, target)),
            target, 0, false, Some(now), "")
  }

  const GoalSetMessage := "目標を設定しました！"

  /** `setGoal` (creating 目標 when missing): appends the new goal and answers its id. */
  method SetGoal(goals: Sheet<GoalRow>, account: Option<Accounts.Account>, s: map<string, string>,
                 req: GoalRequest, uuid: string, now: Stamp)
    returns (id: string)
    modifies goals
    ensures goals.present
    ensures goals.headers == if old(goals.present) then old(goals.headers) else GoalHeaders
    ensures goals.rows == RowsIf(old(goals.present), old(goals.rows)) + [NewGoal(req, ActingAccount(account, s), uuid, now)]
    ensures id == NewGoal(req, ActingAccount(account, s), uuid, now).id
  {
    if !goals.present {
      goals.Insert(GoalHeaders);
    }
    var g := NewGoal(req, ActingAccount(account, s), uuid, now);
    goals.AppendRows([g]);
    id := g.id;
  }

  /** A goal just set is listed last, after the goals listed before. */
  lemma SetGoalListed(rows: seq<GoalRow>, g: GoalRow, accountId: string, inputs: GoalInputs)
    requires g.accountId == accountId && !g.achieved
    ensures GoalsOf(true, rows + [g], accountId, inputs) == GoalsOf(true, rows, accountId, inputs) + [GoalViewOf(g, accountId, inputs)]
  {
    FilterSnoc(rows, g, OpenGoal(accountId));
    var sel := Filter(rows, OpenGoal(accountId));
    assert (sel + [g])[..|sel|] == sel;
    if |rows| == 0 {
      assert sel == [];
    }
  }

  const GoalIdMissingMessage := "目標IDがありません"
  const GoalSheetMissingMessage := "シートがありません"
  const GoalNotFoundMessage := "目標が見つかりません"
  const GoalDeletedMessage := "目標を削除しました"

  function HasGoalId(id: string): GoalRow -> bool
  {
    (g: GoalRow) => g.id == id
  }

  /** The rows without the first goal carrying `id`; none when no goal carries it. */
  function WithoutGoal(rows: seq<GoalRow>, id: string): Option<seq<GoalRow>>
  {
    match FirstWhere(rows, HasGoalId(id))
    case Some(k) => Some(rows[..k] + rows[k + 1..])
    case None => None
  }

  /**
   * `deleteGoal`: an empty id, a missing sheet and an unknown id are
   * errors; otherwise the first row with the id is deleted (of whichever
   * account).
   */
  method DeleteGoal(goals: Sheet<GoalRow>, goalId: string) returns (r: Result<string>)
    modifies goals
    ensures goals.present == old(goals.present) && goals.headers == old(goals.headers)
    ensures goalId == "" ==> r == Err(GoalIdMissingMessage) && goals.rows == old(goals.rows)
    ensures goalId != "" && !old(goals.present) ==> r == Err(GoalSheetMissingMessage) && goals.rows == old(goals.rows)
    ensures goalId != "" && old(goals.present) ==>
      var rest := WithoutGoal(old(goals.rows), goalId);
      && (rest.Some? ==> r == Ok(GoalDeletedMessage) && goals.rows == rest.value)
      && (rest.None? ==> r == Err(GoalNotFoundMessage) && goals.rows == old(goals.rows))
  {
    if goalId == "" {
      return Err(GoalIdMissingMessage);
    }
    if !goals.present {
      return Err(GoalSheetMissingMessage);
    }
    var k := FindFirst(goals.rows, HasGoalId(goalId));
    if k.Some? {
      goals.DeleteRow(k.value);
      return Ok(GoalDeletedMessage);
    }
    return Err(GoalNotFoundMessage);
  }

  /** Deleting removes one row with the id, no more: later duplicates stay. */
  lemma DeleteRemovesOne(rows: seq<GoalRow>, id: string)
    requires WithoutGoal(rows, id).Some?
    ensures |WithoutGoal(rows, id).value| == |rows| - 1
    ensures Count(WithoutGoal(rows, id).value, HasGoalId(id)) == Count(rows, HasGoalId(id)) - 1
  {
    var p := HasGoalId(id);
    var k := FirstWhere(rows, p).value;
    assert rows == rows[..k] + [rows[k]] + rows[k + 1..];
    FilterConcat(rows[..k] + [rows[k]], rows[k + 1..], p);
    FilterConcat(rows[..k], [rows[k]], p);
    FilterConcat(rows[..k], rows[k + 1..], p);
    assert [rows[k]][..0] == [];
  }

  /** Deleting a goal just set, under an id no other goal has, gives back the rows before. */
  lemma DeleteUndoesSet(rows: seq<GoalRow>, g: GoalRow)
    requires forall i :: 0 <= i < |rows| ==> rows[i].id != g.id
    ensures WithoutGoal(rows + [g], g.id) == Some(rows)
  {
    var t := rows + [g];
    assert forall j :: 0 <= j < |rows| ==> !HasGoalId(g.id)(t[j]);
    FirstWhereAt(t, HasGoalId(g.id), |rows|);
    assert t[..|rows|] + t[|rows| + 1..] == rows;
  }
}
