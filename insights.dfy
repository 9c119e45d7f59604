/**
 * Insights.js: `fetchUserInsights`, the account-level insight totals of a
 * period. The three replies the function fetches (the metric totals, the
 * clicks and the four follower-demographics breakdowns) are parameters; the
 * model folds them into the totals and the demographics object exactly as
 * the script does and appends the row to ユーザーインサイト.
 */
module Insights {
  import opened Common
  import opened Store
  import Accounts

  const AuthRequiredMessage := "認証が必要です"

  /** The numeric fields of the result object, all 0 to begin with. */
  const NumericKeys: seq<string> := ["views", "likes", "replies", "reposts", "quotes", "clicks", "followersCount"]

  const Breakdowns: seq<string> := ["country", "city", "age", "gender"]

  const DefaultDays: int := 30

  // ------------------------------------------------------------ the metric totals

  /**
   * One entry of `data`: its name, `total_value.value` (Some(0) for a
   * `total_value` without a value) and the `value`s of its `values` array
   * (a missing value reads as 0).
   */
  datatype Metric = Metric(name: string, totalValue: Option<int>, values: Option<seq<int>>)

  /** `data.error ? throw : data`, as fetched. */
  datatype Reply = Reply(error: Option<string>, data: Option<seq<Metric>>)

  function Sum(vs: seq<int>): int
  {
    if |vs| == 0 then 0 else Sum(vs[..|vs| - 1]) + vs[|vs| - 1]
  }

  /** `values.forEach(function(v) { total += v.value || 0; })`. */
  method SumValues(vs: seq<int>) returns (total: int)
    ensures total == Sum(vs)
  {
    total := 0;
    var i := 0;
    while i < |vs|
      invariant 0 <= i <= |vs|
      invariant total == Sum(vs[..i])
    {
      assert vs[..i + 1][..i] == vs[..i];
      total := total + vs[i];
      i := i + 1;
    }
    assert vs[..i] == vs;
  }

  function HasValues(m: Metric): bool
  {
    m.values.Some? && |m.values.value| > 0
  }

  /** The field one entry writes, if any: `followersCount` for a `followers_count` total, else the entry's own name. */
  function Target(m: Metric): Option<string>
  {
    if m.name == "followers_count" && m.totalValue.Some? then Some("followersCount")
    else if HasValues(m) || m.totalValue.Some? then Some(m.name)
    else None
  }

  /** What it writes there: the total for `followers_count`, else the sum of the values, else the total. */
  function Written(m: Metric): int
  {
    if m.name == "followers_count" && m.totalValue.Some? then m.totalValue.value
    else if HasValues(m) then Sum(m.values.value)
    else if m.totalValue.Some? then m.totalValue.value
    else 0
  }

  function Zeros(): (z: map<string, int>)
    ensures forall k :: k in z <==> k in NumericKeys
    ensures forall k :: k in z ==> z[k] == 0
  {
    map k | k in NumericKeys :: 0
  }

  /** One entry of the `forEach`. */
  function Apply(totals: map<string, int>, m: Metric): map<string, int>
  {
    match Target(m)
    case None => totals
    case Some(k) => totals[k := Written(m)]
  }

  /** The totals after the `forEach` over `data`. */
  function Fold(totals: map<string, int>, ms: seq<Metric>): map<string, int>
  {
    if |ms| == 0 then totals else Apply(Fold(totals, ms[..|ms| - 1]), ms[|ms| - 1])
  }

  function Writes(k: string): Metric -> bool
  {
    (m: Metric) => Target(m) == Some(k)
  }

  /** Every field holds what the last entry writing it wrote, and its starting value when none did. */
  lemma {:induction false} FoldIsLastWrite(totals: map<string, int>, ms: seq<Metric>, k: string)
    ensures match LastWhere(ms, Writes(k))
      case None => (k in Fold(totals, ms) <==> k in totals) && (k in totals ==> Fold(totals, ms)[k] == totals[k])
      case Some(i) => k in Fold(totals, ms) && Fold(totals, ms)[k] == Written(ms[i])
  {
    if |ms| > 0 {
      var init := ms[..|ms| - 1];
      FoldIsLastWrite(totals, init, k);
    }
  }

  /** The `forEach` over `data`. */
  method FoldMetrics(totals: map<string, int>, ms: seq<Metric>) returns (r: map<string, int>)
    ensures r == Fold(totals, ms)
  {
    r := totals;
    var i := 0;
    while i < |ms|
      invariant 0 <= i <= |ms|
      invariant r == Fold(totals, ms[..i])
    {
      var m := ms[i];
      assert ms[..i + 1][..i] == ms[..i];
      if m.name == "followers_count" && m.totalValue.Some? {
        r := r["followersCount" := m.totalValue.value];
      } else if m.values.Some? && |m.values.value| > 0 {
        var total := SumValues(m.values.value);
        r := r[m.name := total];
      } else if m.totalValue.Some? {
        r := r[m.name := m.totalValue.value];
      }
      i := i + 1;
    }
    assert ms[..i] == ms;
  }

  // ------------------------------------------------------------ clicks

  /** The clicks call: `data[0]`, if the reply has one; None for the whole reply when the call threw. */
  function Clicks(totals: map<string, int>, reply: Option<Option<Metric>>): (r: map<string, int>)
    ensures forall k :: k != "clicks" ==> (k in r <==> k in totals) && (k in totals ==> r[k] == totals[k])
    ensures reply.None? || reply.value.None? ==> r == totals
    ensures reply.Some? && reply.value.Some? && reply.value.value.totalValue.Some? ==>
      r == totals["clicks" := reply.value.value.totalValue.value]
  {
    match reply
    case None => totals
    case Some(None) => totals
    case Some(Some(m)) =>
      if m.totalValue.Some? then totals["clicks" := m.totalValue.value]
      else if m.values.Some? then totals["clicks" := Sum(m.values.value)]
      else totals
  }

  // ------------------------------------------------------------ demographics

  /** One result of a breakdown: `dimension_values[0]` and `value`. */
  datatype DemoItem = DemoItem(key: string, value: int)

  /** `flat`: each item maps its key to its value, a later item overriding an earlier one. */
  function Flat(items: seq<DemoItem>): map<string, int>
  {
    if |items| == 0 then map[]
    else
      var last := items[|items| - 1];
      Flat(items[..|items| - 1])[last.key := last.value]
  }

  /** The keys of `flat` are exactly the items' dimension values. */
  lemma {:induction false} FlatKeys(items: seq<DemoItem>, k: string)
    ensures k in Flat(items) <==> exists i :: 0 <= i < |items| && items[i].key == k
  {
    if |items| > 0 {
      var init := items[..|items| - 1];
      FlatKeys(init, k);
      if k in Flat(init) {
        var i :| 0 <= i < |init| && init[i].key == k;
        assert items[i].key == k;
      }
      if exists i :: 0 <= i < |items| && items[i].key == k {
        var i :| 0 <= i < |items| && items[i].key == k;
        if i < |init| {
          assert init[i].key == k;
        }
      }
    }
  }

  function HasKey(k: string): DemoItem -> bool
  {
    (d: DemoItem) => d.key == k
  }

  /** Each key holds the value of its last item. */
  lemma {:induction false} FlatIsLastItem(items: seq<DemoItem>, k: string)
    requires k in Flat(items)
    ensures LastWhere(items, HasKey(k)).Some? && Flat(items)[k] == items[LastWhere(items, HasKey(k)).value].value
  {
    var init := items[..|items| - 1];
    if items[|items| - 1].key != k {
      FlatIsLastItem(init, k);
    }
  }

  /** A reply is empty exactly when it has no results. */
  lemma FlatEmpty(items: seq<DemoItem>)
    ensures |Flat(items)| == 0 <==> |items| == 0
  {
    if |items| > 0 {
      assert items[|items| - 1].key in Flat(items);
    }
  }

  /**
   * What `fetchUserInsights` keeps of the breakdown replies: `replies[i]`
   * is `data[0].total_value.breakdowns[0].results` of breakdown i (an empty
   * list when any link of that chain is missing), or None when the call
   * threw. A throw abandons the whole `try`, so the result is null.
   */
  function Demographics(replies: seq<Option<seq<DemoItem>>>): (d: Option<map<string, map<string, int>>>)
    requires |replies| == |Breakdowns|
  {
    if exists i :: 0 <= i < |replies| && replies[i].None? then None
    else
      var m := DemoMap(replies, |replies|);
      if |m| > 0 then Some(m) else None
  }

  /** `demoData` after the first `n` breakdowns: each with a non-empty `flat`. */
  function DemoMap(replies: seq<Option<seq<DemoItem>>>, n: nat): (m: map<string, map<string, int>>)
    requires n <= |replies| == |Breakdowns|
  {
    if n == 0 then map[]
    else
      var m := DemoMap(replies, n - 1);
      var flat := Flat(ItemsOf(replies, n - 1));
      if |flat| > 0 then m[Breakdowns[n - 1] := flat] else m
  }

  /** The results of breakdown i; none when its call threw. */
  function ItemsOf(replies: seq<Option<seq<DemoItem>>>, i: nat): seq<DemoItem>
    requires i < |replies|
  {
    if replies[i].Some? then replies[i].value else []
  }

  /** The breakdowns in the result are exactly the ones with results, each with its `flat` object. */
  lemma {:induction false} DemoMapKeys(replies: seq<Option<seq<DemoItem>>>, n: nat, i: nat)
    requires n <= |replies| == |Breakdowns| && i < n
    ensures Breakdowns[i] in DemoMap(replies, n) <==> |ItemsOf(replies, i)| > 0
    ensures |ItemsOf(replies, i)| > 0 ==> DemoMap(replies, n)[Breakdowns[i]] == Flat(ItemsOf(replies, i))
  {
    FlatEmpty(ItemsOf(replies, i));
    if i < n - 1 {
      DemoMapKeys(replies, n - 1, i);
      BreakdownsDistinct(i, n - 1);
    } else {
      LastBreakdown(replies, n);
    }
  }

  /** The breakdown added last is in the map exactly when its `flat` is non-empty. */
  lemma LastBreakdown(replies: seq<Option<seq<DemoItem>>>, n: nat)
    requires 0 < n <= |replies| == |Breakdowns|
    ensures Breakdowns[n - 1] in DemoMap(replies, n) <==> |Flat(ItemsOf(replies, n - 1))| > 0
  {
    if Breakdowns[n - 1] in DemoMap(replies, n - 1) {
      DemoMapDomain(replies, n - 1, Breakdowns[n - 1]);
      var j :| 0 <= j < n - 1 && Breakdowns[j] == Breakdowns[n - 1];
      BreakdownsDistinct(j, n - 1);
    }
  }

  /** Only breakdown names appear in `demoData`. */
  lemma {:induction false} DemoMapDomain(replies: seq<Option<seq<DemoItem>>>, n: nat, k: string)
    requires n <= |replies| == |Breakdowns|
    requires k in DemoMap(replies, n)
    ensures exists i :: 0 <= i < n && Breakdowns[i] == k
  {
    if k != Breakdowns[n - 1] {
      DemoMapDomain(replies, n - 1, k);
    }
  }

  /** The four breakdown names differ. */
  lemma BreakdownsDistinct(i: nat, j: nat)
    requires i < j < |Breakdowns|
    ensures Breakdowns[i] != Breakdowns[j]
  {
    assert |Breakdowns[0]| == 7 && |Breakdowns[1]| == 4 && |Breakdowns[2]| == 3 && |Breakdowns[3]| == 6;
  }

  /** null exactly when a breakdown call threw or no breakdown has results. */
  lemma DemographicsNull(replies: seq<Option<seq<DemoItem>>>)
    requires |replies| == |Breakdowns|
    ensures Demographics(replies).None? <==>
      (exists i :: 0 <= i < |replies| && replies[i].None?)
      || (forall i :: 0 <= i < |replies| ==> replies[i].Some? && |replies[i].value| == 0)
  {
    if forall i :: 0 <= i < |replies| ==> replies[i].Some? {
      var m := DemoMap(replies, |replies|);
      if |m| == 0 {
        forall i | 0 <= i < |replies|
          ensures |replies[i].value| == 0
        {
          DemoMapKeys(replies, |replies|, i);
        }
      } else {
        var k :| k in m;
        DemoMapDomain(replies, |replies|, k);
        var i :| 0 <= i < |replies| && Breakdowns[i] == k;
        DemoMapKeys(replies, |replies|, i);
      }
    }
  }

  /** The `forEach` over one breakdown's results. */
  method FlattenItems(items: seq<DemoItem>) returns (flat: map<string, int>)
    ensures flat == Flat(items)
  {
    flat := map[];
    var i := 0;
    while i < |items|
      invariant 0 <= i <= |items|
      invariant flat == Flat(items[..i])
    {
      assert items[..i + 1][..i] == items[..i];
      flat := flat[items[i].key := items[i].value];
      i := i + 1;
    }
    assert items[..i] == items;
  }

  /** The `try` around the four breakdown calls. */
  method FetchDemographics(replies: seq<Option<seq<DemoItem>>>) returns (d: Option<map<string, map<string, int>>>)
    requires |replies| == |Breakdowns|
    ensures d == Demographics(replies)
  {
    var demoData: map<string, map<string, int>> := map[];
    var n := 0;
    while n < |Breakdowns|
      invariant 0 <= n <= |Breakdowns|
      invariant forall i :: 0 <= i < n ==> replies[i].Some?
      invariant demoData == DemoMap(replies, n)
    {
      if replies[n].None? {
        return None;
      }
      var flat := FlattenItems(replies[n].value);
      if |flat| > 0 {
        demoData := demoData[Breakdowns[n] := flat];
      }
      n := n + 1;
    }
    if |demoData| > 0 {
      return Some(demoData);
    }
    return None;
  }

  // ------------------------------------------------------------ the call

  /** The returned object; `since`/`until` are epoch seconds. */
  datatype UserInsights = UserInsights(
    totals: map<string, int>, accountId: string, accountUsername: string,
    since: int, until: int, days: int, demographics: Option<map<string, map<string, int>>>)

  function UsernameOf(account: Option<Accounts.Account>): string
  {
    match account
    case None => ""
    case Some(Stored(row)) => row.username
    case Some(Legacy(_, _, username, _, _)) => username
  }

  function Get(totals: map<string, int>, k: string): int
  {
    if k in totals then totals[k] else 0
  }

  /** The ユーザーインサイト row: account, now, the seven numbers, now. */
  function InsightRowOf(accountId: string, totals: map<string, int>, nowMs: int): InsightRow
  {
    InsightRow(accountId, nowMs, Get(totals, "views"), Get(totals, "likes"), Get(totals, "replies"),
               Get(totals, "reposts"), Get(totals, "quotes"), Get(totals, "clicks"), Get(totals, "followersCount"), nowMs)
  }

  /** `sinceDays || 30`. */
  function Days(sinceDays: Option<int>): int
  {
    if sinceDays.Some? && sinceDays.value != 0 then sinceDays.value else DefaultDays
  }

  /**
   * `fetchUserInsights(ss, sinceDays)`: `reply` is the metric call (Err when
   * the fetch threw), `clicks` and `demo` the other calls as above.
   */
  method FetchUserInsights(sheet: Sheet<InsightRow>, auth: Option<Accounts.Auth>, account: Option<Accounts.Account>,
                           sinceDays: Option<int>, nowMs: int, reply: Result<Reply>,
                           clicks: Option<Option<Metric>>, demo: seq<Option<seq<DemoItem>>>)
    returns (r: Result<UserInsights>)
    requires |demo| == |Breakdowns|
    modifies sheet
    ensures auth.None? || auth.value.accessToken == "" ==> r == Err(AuthRequiredMessage) && unchanged(sheet)
    ensures auth.Some? && auth.value.accessToken != "" && reply.Err? ==> r == Err(reply.error) && unchanged(sheet)
    ensures auth.Some? && auth.value.accessToken != "" && reply.Ok? && reply.value.error.Some? ==>
      r == Err(reply.value.error.value) && unchanged(sheet)
    ensures auth.Some? && auth.value.accessToken != "" && reply.Ok? && reply.value.error.None? ==> r.Ok?
    ensures r.Ok? ==>
      && reply.Ok? && reply.value.error.None?
      && var data := if reply.value.data.Some? then reply.value.data.value else [];
         var totals := Clicks(Fold(Zeros(), data), clicks);
         var acct := Accounts.ActiveAccountId(account);
      && r.value == UserInsights(totals, acct, UsernameOf(account),
                                 (nowMs - Days(sinceDays) * DayMs) / 1000, nowMs / 1000, Days(sinceDays),
                                 Demographics(demo))
      && sheet.rows == old(sheet.rows) + (if sheet.present then [InsightRowOf(acct, totals, nowMs)] else [])
      && sheet.present == old(sheet.present) && sheet.headers == old(sheet.headers)
  {
    if auth.None? || auth.value.accessToken == "" {
      return Err(AuthRequiredMessage);
    }
    var accountId := Accounts.ActiveAccountId(account);
    var days := Days(sinceDays);
    var until := nowMs / 1000;
    var since := (nowMs - days * DayMs) / 1000;
    if reply.Err? {
      return Err(reply.error);
    }
    if reply.value.error.Some? {
      return Err(reply.value.error.value);
    }
    var totals := Zeros();
    if reply.value.data.Some? {
      totals := FoldMetrics(totals, reply.value.data.value);
    }
    totals := Clicks(totals, clicks);
    var demographics := FetchDemographics(demo);
    if sheet.present {
      sheet.AppendRows([InsightRowOf(accountId, totals, nowMs)]);
    }
    return Ok(UserInsights(totals, accountId, UsernameOf(account), since, until, days, demographics));
  }
}
