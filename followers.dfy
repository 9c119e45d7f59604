/**
 * Followers.js: the row logic of the daily follower record and of the
 * follower history. `recordDailyFollowers` keeps one row per day and
 * account in フォロワー推移, with the change since the previous day on
 * record and the change in percent since a week ago; `getFollowerHistory`
 * reads back the rows of the last few days.
 */
module Followers {
  import opened Common
  import opened Store

  const Headers: seq<string> := ["date", "followers_count", "follows_count", "daily_change", "weekly_change_pct", "account_id"]

  /** `ensureFollowerSheet_`: a missing sheet is created with its header row. */
  method EnsureFollowerSheet(sheet: Sheet<FollowerRow>)
    modifies sheet
    ensures sheet.present
    ensures old(sheet.present) ==> sheet.headers == old(sheet.headers) && sheet.rows == old(sheet.rows)
    ensures !old(sheet.present) ==> sheet.headers == Headers && sheet.rows == []
  {
    if !sheet.present {
      sheet.Insert(Headers);
    }
  }

  // ------------------------------------------------------------ the count

  /** One entry of the insights reply: its name and `total_value.value`, if present. */
  datatype InsightMetric = InsightMetric(name: string, totalValue: Option<int>)

  function IsFollowersCount(m: InsightMetric): bool
  {
    m.name == "followers_count"
  }

  /** `followersCount`: the value of the first `followers_count` entry; 0 without a `data` array, such an entry or a value. */
  function FollowersCount(data: Option<seq<InsightMetric>>): (n: int)
    ensures data.None? ==> n == 0
    ensures data.Some? && FirstWhere(data.value, IsFollowersCount).Some? ==>
      var m := data.value[FirstWhere(data.value, IsFollowersCount).value];
      n == (if m.totalValue.Some? then m.totalValue.value else 0)
    ensures n != 0 ==> exists m :: m in data.value && IsFollowersCount(m) && m.totalValue == Some(n)
  {
    if data.None? then 0
    else
      match FirstWhere(data.value, IsFollowersCount)
      case None => 0
      case Some(k) =>
        var m := data.value[k];
        if m.totalValue.Some? then m.totalValue.value else 0
  }

  // ------------------------------------------------------------ today's row

  /**
   * What the `existingRow` loop meets first: the row of the account dated
   * today, or a row whose date cell holds no date (formatting it throws
   * and ends the account's run), or neither.
   */
  datatype Existing = Found(index: nat) | NotFound | Throws

  /** A row the `existingRow` loop stops at. */
  function StopsScan(accountId: string, today: int): FollowerRow -> bool
  {
    (r: FollowerRow) => r.date.None? || (r.date.value.day == today && r.accountId == accountId)
  }

  function ExistingRow(rows: seq<FollowerRow>, accountId: string, today: int): (e: Existing)
    ensures e.Found? ==> e.index < |rows| && rows[e.index].accountId == accountId
                         && rows[e.index].date.Some? && rows[e.index].date.value.day == today
    ensures e.Found? ==> forall j :: 0 <= j < e.index ==>
      rows[j].date.Some? && !(rows[j].date.value.day == today && rows[j].accountId == accountId)
    ensures e.Throws? ==> exists k :: 0 <= k < |rows| && rows[k].date.None?
                                      && forall j :: 0 <= j < k ==> rows[j].date.Some?
    ensures e.NotFound? ==> forall j :: 0 <= j < |rows| ==>
      rows[j].date.Some? && !(rows[j].date.value.day == today && rows[j].accountId == accountId)
  {
    match FirstWhere(rows, StopsScan(accountId, today))
    case None => NotFound
    case Some(k) => if rows[k].date.None? then Throws else Found(k)
  }

  /** The `existingRow` loop. */
  method FindExistingRow(rows: seq<FollowerRow>, accountId: string, today: int) returns (e: Existing)
    ensures e == ExistingRow(rows, accountId, today)
  {
    var k := FindFirst(rows, StopsScan(accountId, today));
    if k.None? {
      return NotFound;
    }
    if rows[k.value].date.None? {
      return Throws;
    }
    return Found(k.value);
  }

  /** A dated row of the account from a day other than today. */
  function EarlierDay(accountId: string, today: int): FollowerRow -> bool
  {
    (r: FollowerRow) => r.accountId == accountId && r.date.Some? && r.date.value.day != today
  }

  /** `prevCount`: the count of the bottom-most row of the account not dated today, or 0. */
  function PrevCount(rows: seq<FollowerRow>, accountId: string, today: int): int
  {
    match LastWhere(rows, EarlierDay(accountId, today))
    case None => 0
    case Some(k) => rows[k].count
  }

  /** A dated row of the account from a week ago or earlier. */
  function WeekAgoOrEarlier(accountId: string, today: int): FollowerRow -> bool
  {
    (r: FollowerRow) => r.accountId == accountId && r.date.Some? && r.date.value.day <= today - 7
  }

  /** `weekAgoCount`: the count of the last such row in sheet order, or 0. */
  function WeekAgoCount(rows: seq<FollowerRow>, accountId: string, today: int): int
  {
    match LastWhere(rows, WeekAgoOrEarlier(accountId, today))
    case None => 0
    case Some(k) => rows[k].count
  }

  /** The forward `weekAgoCount` loop: every matching row overwrites the count. */
  method ScanWeekAgo(rows: seq<FollowerRow>, accountId: string, today: int) returns (count: int)
    ensures count == WeekAgoCount(rows, accountId, today)
  {
    var keep := WeekAgoOrEarlier(accountId, today);
    count := 0;
    var i := 0;
    while i < |rows|
      invariant 0 <= i <= |rows|
      invariant count == WeekAgoCount(rows[..i], accountId, today)
    {
      assert rows[..i + 1][..i] == rows[..i];
      if keep(rows[i]) {
        count := rows[i].count;
      }
      i := i + 1;
    }
    assert rows[..i] == rows;
  }

  /** `weeklyPct` in tenths of a percent: round(Δ / base · 1000), or 0 without a positive base. */
  function WeeklyPctTenths(current: int, weekAgo: int): (t: int)
    ensures weekAgo <= 0 ==> t == 0
    ensures weekAgo > 0 ==> var x := ((current - weekAgo) * 1000) as real / weekAgo as real;
      x - 0.5 < t as real <= x + 0.5
  {
    if weekAgo > 0 then Round(((current - weekAgo) * 1000) as real / weekAgo as real) else 0
  }

  /** No change gives 0 %, a gain a non-negative and a loss a non-positive percentage. */
  lemma WeeklyPctSign(current: int, weekAgo: int)
    requires weekAgo > 0
    ensures current == weekAgo ==> WeeklyPctTenths(current, weekAgo) == 0
    ensures current > weekAgo ==> WeeklyPctTenths(current, weekAgo) >= 0
    ensures current < weekAgo ==> WeeklyPctTenths(current, weekAgo) <= 0
  {
    var x := ((current - weekAgo) * 1000) as real / weekAgo as real;
    if current > weekAgo {
      assert x >= 0.0;
    } else if current < weekAgo {
      assert x <= 0.0;
    }
  }

  /** A higher count today never gives a lower percentage. */
  lemma WeeklyPctMono(a: int, b: int, weekAgo: int)
    requires a <= b
    ensures WeeklyPctTenths(a, weekAgo) <= WeeklyPctTenths(b, weekAgo)
  {
    if weekAgo > 0 {
      var w := weekAgo as real;
      assert ((a - weekAgo) * 1000) as real <= ((b - weekAgo) * 1000) as real;
      DivMono(((a - weekAgo) * 1000) as real, ((b - weekAgo) * 1000) as real, w);
      RoundMono(((a - weekAgo) * 1000) as real / w, ((b - weekAgo) * 1000) as real / w);
    }
  }

  lemma DivMono(x: real, y: real, w: real)
    requires x <= y && w > 0.0
    ensures x / w <= y / w
  {
    assert y / w - x / w == (y - x) / w;
  }

  /** The row written for today: `[now, count, 0, dailyChange, weeklyPct, accountId]`. */
  function TodayRow(rows: seq<FollowerRow>, accountId: string, now: Stamp, count: int): FollowerRow
  {
    FollowerRow(Some(now), count, 0, count - PrevCount(rows, accountId, now.day),
                WeeklyPctTenths(count, WeekAgoCount(rows, accountId, now.day)), accountId)
  }

  /**
   * One account's turn of `recordDailyFollowers`, from the read of the sheet
   * on: `count` is the follower count the insights call gave. Returns what
   * the `existingRow` loop met.
   */
  method RecordDailyFollowers(sheet: Sheet<FollowerRow>, accountId: string, now: Stamp, count: int)
    returns (e: Existing)
    modifies sheet
    ensures sheet.present
    ensures var before := RowsIf(old(sheet.present), old(sheet.rows));
      && e == ExistingRow(before, accountId, now.day)
      && (e.Throws? ==> sheet.rows == before)
      && (e.Found? ==> sheet.rows == before[e.index := TodayRow(before, accountId, now, count)])
      && (e.NotFound? ==> sheet.rows == before + [TodayRow(before, accountId, now, count)])
  {
    EnsureFollowerSheet(sheet);
    var data := sheet.rows;
    e := FindExistingRow(data, accountId, now.day);
    if e.Throws? {
      return;
    }
    var prev := FindLast(data, EarlierDay(accountId, now.day));
    var prevCount := if prev.Some? then data[prev.value].count else 0;
    var dailyChange := count - prevCount;
    var weekAgoCount := ScanWeekAgo(data, accountId, now.day);
    var weeklyPct := WeeklyPctTenths(count, weekAgoCount);
    var row := FollowerRow(Some(now), count, 0, dailyChange, weeklyPct, accountId);
    if e.Found? {
      sheet.SetRow(e.index, row);
    } else {
      sheet.AppendRows([row]);
    }
  }

  /** The daily change is measured against the bottom-most earlier-day row of the account. */
  lemma DailyChangeAgainstPrevious(rows: seq<FollowerRow>, accountId: string, now: Stamp, count: int)
    ensures var row := TodayRow(rows, accountId, now, count);
      var p := EarlierDay(accountId, now.day);
      && (LastWhere(rows, p).None? <==> forall j :: 0 <= j < |rows| ==> !p(rows[j]))
      && (LastWhere(rows, p).None? ==> row.dailyChange == count)
      && (LastWhere(rows, p).Some? ==> exists k :: 0 <= k < |rows| && p(rows[k]) && row.dailyChange == count - rows[k].count
                                                  && forall j :: k < j < |rows| ==> !p(rows[j]))
  {
    var p := EarlierDay(accountId, now.day);
    match LastWhere(rows, p)
    case Some(k) =>
      assert p(rows[k]);
    case None =>
  }

  // ------------------------------------------------------------ one row per day

  /** No two dated rows of one account fall on the same day. */
  predicate OneRowPerDay(rows: seq<FollowerRow>)
  {
    forall i, j :: 0 <= i < j < |rows| && rows[i].date.Some? && rows[j].date.Some? ==>
      !(rows[i].date.value.day == rows[j].date.value.day && rows[i].accountId == rows[j].accountId)
  }

  /** A run that writes keeps at most one row per day and account. */
  lemma RecordKeepsOneRowPerDay(rows: seq<FollowerRow>, accountId: string, now: Stamp, count: int)
    requires OneRowPerDay(rows)
    ensures var e := ExistingRow(rows, accountId, now.day);
      var row := TodayRow(rows, accountId, now, count);
      && (e.Found? ==> OneRowPerDay(rows[e.index := row]))
      && (e.NotFound? ==> OneRowPerDay(rows + [row]))
  {
    var e := ExistingRow(rows, accountId, now.day);
    var row := TodayRow(rows, accountId, now, count);
    if e.Found? {
      var s := rows[e.index := row];
      forall i, j | 0 <= i < j < |s| && s[i].date.Some? && s[j].date.Some?
        ensures !(s[i].date.value.day == s[j].date.value.day && s[i].accountId == s[j].accountId)
      {
        if i == e.index {
          assert rows[i].date.value.day == now.day && rows[i].accountId == accountId;
        } else if j == e.index {
          assert rows[j].date.value.day == now.day && rows[j].accountId == accountId;
        }
      }
    } else if e.NotFound? {
      var s := rows + [row];
      forall i, j | 0 <= i < j < |s| && s[i].date.Some? && s[j].date.Some?
        ensures !(s[i].date.value.day == s[j].date.value.day && s[i].accountId == s[j].accountId)
      {
        if j == |rows| {
          assert s[i] == rows[i];
        } else {
          assert s[i] == rows[i] && s[j] == rows[j];
        }
      }
    }
  }

  /** A second run the same day finds the row the first one wrote, and overwrites it instead of appending. */
  lemma SecondRunFindsToday(rows: seq<FollowerRow>, accountId: string, now: Stamp, count: int, row: FollowerRow)
    requires row.date == Some(now) && row.accountId == accountId
    ensures ExistingRow(rows, accountId, now.day).NotFound? ==>
      ExistingRow(rows + [row], accountId, now.day) == Found(|rows|)
    ensures ExistingRow(rows, accountId, now.day).Found? ==>
      var k := ExistingRow(rows, accountId, now.day).index;
      ExistingRow(rows[k := row], accountId, now.day) == Found(k)
  {
    var p := StopsScan(accountId, now.day);
    var e := ExistingRow(rows, accountId, now.day);
    if e.NotFound? {
      var s := rows + [row];
      assert forall j :: 0 <= j < |rows| ==> s[j] == rows[j];
      FirstWhereAt(s, p, |rows|);
    } else if e.Found? {
      var k := e.index;
      var s := rows[k := row];
      assert FirstWhere(rows, p) == Some(k);
      assert forall j :: 0 <= j < k ==> s[j] == rows[j];
      FirstWhereAt(s, p, k);
    }
  }

  // ------------------------------------------------------------ history

  /** `{dates, counts, changes}`; dates are kept as day numbers (formatted 'MM/dd' by the script). */
  datatype History = History(dates: seq<int>, counts: seq<int>, changes: seq<int>)

  /** `cutoff`: `days` days before now, 7 when `days` is missing or 0. */
  function HistoryCutoff(days: Option<int>, nowMs: int): int
  {
    var n := if days.Some? && days.value != 0 then days.value else 7;
    nowMs - n * DayMs
  }

  /** A dated row at or after the cutoff, of the account when one is known. */
  function InHistory(accountId: string, cutoffMs: int): FollowerRow -> bool
  {
    (r: FollowerRow) => r.date.Some? && r.date.value.ms >= cutoffMs && (accountId == "" || r.accountId == accountId)
  }

  function HistoryOf(rows: seq<FollowerRow>): (h: History)
    ensures |h.dates| == |rows| && |h.counts| == |rows| && |h.changes| == |rows|
    ensures forall i :: 0 <= i < |rows| ==>
      rows[i].date.Some? ==> h.dates[i] == rows[i].date.value.day
    ensures forall i :: 0 <= i < |rows| ==> h.counts[i] == rows[i].count && h.changes[i] == rows[i].dailyChange
  {
    if |rows| == 0 then History([], [], [])
    else
      var h := HistoryOf(rows[..|rows| - 1]);
      var r := rows[|rows| - 1];
      History(h.dates + [if r.date.Some? then r.date.value.day else 0], h.counts + [r.count], h.changes + [r.dailyChange])
  }

  /** `getFollowerHistory(days)`: a missing or empty sheet gives three empty lists. */
  method GetFollowerHistory(sheet: Sheet<FollowerRow>, accountId: string, days: Option<int>, nowMs: int)
    returns (h: History)
    ensures h == HistoryOf(Filter(RowsIf(sheet.present, sheet.rows), InHistory(accountId, HistoryCutoff(days, nowMs))))
  {
    if !sheet.present || |sheet.rows| == 0 {
      return History([], [], []);
    }
    var rows := sheet.rows;
    var cutoff := HistoryCutoff(days, nowMs);
    var keep := InHistory(accountId, cutoff);
    h := History([], [], []);
    ghost var sel: seq<FollowerRow> := [];
    var i := 0;
    while i < |rows|
      invariant 0 <= i <= |rows|
      invariant sel == Filter(rows[..i], keep)
      invariant h == HistoryOf(sel)
    {
      assert rows[..i + 1] == rows[..i] + [rows[i]];
      FilterSnoc(rows[..i], rows[i], keep);
      var r := rows[i];
      i := i + 1;
      if r.date.None? {
        continue;
      }
      if r.date.value.ms < cutoff {
        continue;
      }
      if accountId != "" && r.accountId != accountId {
        continue;
      }
      HistorySnoc(sel, r);
      sel := sel + [r];
      h := History(h.dates + [r.date.value.day], h.counts + [r.count], h.changes + [r.dailyChange]);
    }
    assert rows[..i] == rows;
  }

  lemma HistorySnoc(sel: seq<FollowerRow>, r: FollowerRow)
    requires r.date.Some?
    ensures var h := HistoryOf(sel);
      HistoryOf(sel + [r]) == History(h.dates + [r.date.value.day], h.counts + [r.count], h.changes + [r.dailyChange])
  {
    assert (sel + [r])[..|sel|] == sel;
  }

  /** The history lists exactly the dated rows inside the window (of the account, when known), in sheet order. */
  lemma HistoryListsWindow(rows: seq<FollowerRow>, accountId: string, cutoffMs: int, x: FollowerRow)
    ensures x in Filter(rows, InHistory(accountId, cutoffMs)) <==>
      x in rows && x.date.Some? && x.date.value.ms >= cutoffMs && (accountId == "" || x.accountId == accountId)
  {
    var keep := InHistory(accountId, cutoffMs);
    if x in Filter(rows, keep) {
      FilterMember(rows, keep, x);
    }
    if x in rows && keep(x) {
      var k :| 0 <= k < |rows| && rows[k] == x;
      FilterContains(rows, keep, k);
    }
  }

  /** A shorter window is the longer window's history filtered again: asking for fewer days only drops the oldest rows. */
  lemma ShorterWindowNarrows(rows: seq<FollowerRow>, accountId: string, nowMs: int, fewer: int, more: int)
    requires 0 < fewer <= more
    ensures var near := InHistory(accountId, HistoryCutoff(Some(fewer), nowMs));
      Filter(Filter(rows, InHistory(accountId, HistoryCutoff(Some(more), nowMs))), near) == Filter(rows, near)
  {
    var near := InHistory(accountId, HistoryCutoff(Some(fewer), nowMs));
    var far := InHistory(accountId, HistoryCutoff(Some(more), nowMs));
    assert fewer * DayMs <= more * DayMs;
    FilterFilterImplied(rows, far, near);
  }
}
