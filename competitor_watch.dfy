/**
 * CompetitorWatch.js: the competitor accounts and the competitor posts
 * recorded by hand, each kept per active account, and the choice of posts
 * the buzz analysis sends to the language model.
 */
module CompetitorWatch {
  import opened Common
  import opened Store
  import Accounts

  const NameMissingMessage := "ユーザー名を入力してください"
  const CompetitorSheetMissingMessage := "競合アカウントシートがありません。設定を再初期化してください。"
  const IdMissingMessage := "競合IDが指定されていません"
  const SheetMissingMessage := "シートがありません"
  const CompetitorNotFoundMessage := "競合が見つかりません"
  const WatchNameMissingMessage := "競合ユーザー名を入力してください"
  const PostTextMissingMessage := "投稿テキストを入力してください"
  const WatchSheetMissingMessage := "競合ウォッチシートがありません"
  const WatchNotFoundMessage := "記録が見つかりません"
  const NoWatchPostsMessage := "競合投稿の記録がありません。先に投稿を記録してください。"

  const DefaultCategory := "同業"
  const AutoCategory := "自動登録"
  const BuzzTag := "バズ"
  const BuzzFallbackSize: nat := 15

  function DuplicateMessage(username: string): string
  {
    "@" + username + " は既に登録されています"
  }

  /** `account ? account.accountId || '' : ''`. */
  function OwnerId(account: Option<Accounts.Account>): string
  {
    if account.Some? then Accounts.AccountIdOf(account.value) else ""
  }

  /** A user name as typed: trimmed, without one leading '@'. */
  function CompetitorName(raw: string): string
  {
    StripAt(Trim(raw))
  }

  // ------------------------------------------------------------ competitors

  /** The competitor of the account under the user name, compared ignoring case. */
  function SameCompetitor(accountId: string, username: string): CompetitorRow -> bool
  {
    (r: CompetitorRow) => r.accountId == accountId && ToLower(r.username) == ToLower(username)
  }

  /** No account lists the same competitor twice (ignoring case). */
  ghost predicate UniqueCompetitors(rows: seq<CompetitorRow>)
  {
    forall i, j :: 0 <= i < j < |rows| && rows[i].accountId == rows[j].accountId ==>
      ToLower(rows[i].username) != ToLower(rows[j].username)
  }

  /** The request of `addCompetitor`; an absent field is "". */
  datatype CompetitorParams = CompetitorParams(
    username: string, displayName: string, category: string, followersCount: string, memo: string)

  /** The nine columns `addCompetitor` appends. */
  function NewCompetitor(uuid: string, accountId: string, p: CompetitorParams, now: int): CompetitorRow
  {
    CompetitorRow("comp_" + Take(uuid, 8), accountId, CompetitorName(p.username), Trim(p.displayName),
                  Trim(OrDefault(p.category, DefaultCategory)), IntOrZero(p.followersCount), now,
                  Trim(p.memo), now)
  }

  /**
   * `addCompetitor`: an empty name, a missing sheet and a name the account
   * already lists are errors that change nothing; otherwise the new row is
   * appended and its id returned.
   */
  method AddCompetitor(sheet: Sheet<CompetitorRow>, account: Option<Accounts.Account>, p: CompetitorParams,
                       uuid: string, now: int) returns (r: Result<string>)
    modifies sheet
    ensures sheet.present == old(sheet.present) && sheet.headers == old(sheet.headers)
    ensures var name := CompetitorName(p.username);
      && (name == "" ==> r == Err(NameMissingMessage) && sheet.rows == old(sheet.rows))
      && (name != "" && !sheet.present ==> r == Err(CompetitorSheetMissingMessage) && sheet.rows == old(sheet.rows))
      && (name != "" && sheet.present && FirstWhere(old(sheet.rows), SameCompetitor(OwnerId(account), name)).Some? ==>
            r == Err(DuplicateMessage(name)) && sheet.rows == old(sheet.rows))
      && (name != "" && sheet.present && FirstWhere(old(sheet.rows), SameCompetitor(OwnerId(account), name)).None? ==>
            var row := NewCompetitor(uuid, OwnerId(account), p, now);
            r == Ok(row.competitorId) && sheet.rows == old(sheet.rows) + [row])
  {
    var name := CompetitorName(p.username);
    if name == "" {
      return Err(NameMissingMessage);
    }
    var accountId := OwnerId(account);
    if !sheet.present {
      return Err(CompetitorSheetMissingMessage);
    }
    var dup := FindFirst(sheet.rows, SameCompetitor(accountId, name));
    if dup.Some? {
      return Err(DuplicateMessage(name));
    }
    var row := NewCompetitor(uuid, accountId, p, now);
    sheet.AppendRows([row]);
    r := Ok(row.competitorId);
  }

  /** Appending a competitor the account does not list yet keeps every account's list free of duplicates. */
  lemma AddKeepsUnique(rows: seq<CompetitorRow>, row: CompetitorRow)
    requires UniqueCompetitors(rows)
    requires FirstWhere(rows, SameCompetitor(row.accountId, row.username)).None?
    ensures UniqueCompetitors(rows + [row])
  {
    var t := rows + [row];
    forall i, j | 0 <= i < j < |t| && t[i].accountId == t[j].accountId
      ensures ToLower(t[i].username) != ToLower(t[j].username)
    {
      if j == |rows| {
        assert !SameCompetitor(row.accountId, row.username)(rows[i]);
      }
    }
  }

  /** A competitor as `getCompetitors` lists it; `watchCount` is absent when there are no watch rows. */
  datatype CompetitorView = CompetitorView(
    competitorId: string, username: string, displayName: string, category: string,
    followersCount: int, followersUpdated: int, memo: string, createdAt: int, watchCount: Option<nat>)

  function OwnedBy(accountId: string): CompetitorRow -> bool
  {
    (r: CompetitorRow) => r.accountId == accountId
  }

  /** A watch row of the account about the user (exact match, as `countMap[c.username]` reads). */
  function WatchedBy(accountId: string, username: string): WatchRow -> bool
  {
    (w: WatchRow) => w.accountId == accountId && w.username == username
  }

  /** `countMap`: the number of the account's watch rows per user name. */
  function WatchCounts(rows: seq<WatchRow>, accountId: string): map<string, nat>
  {
    if |rows| == 0 then map[]
    else
      var m := WatchCounts(rows[..|rows| - 1], accountId);
      var w := rows[|rows| - 1];
      if w.accountId == accountId then m[w.username := CountIn(m, w.username) + 1] else m
  }

  /** `countMap[u] || 0`. */
  function CountIn(m: map<string, nat>, u: string): nat
  {
    if u in m then m[u] else 0
  }

  /** The counter holds, for every user, the number of the account's watch rows about that user. */
  lemma {:induction false} WatchCountIsCount(rows: seq<WatchRow>, accountId: string, u: string)
    ensures CountIn(WatchCounts(rows, accountId), u) == Count(rows, WatchedBy(accountId, u))
  {
    if |rows| > 0 {
      var init := rows[..|rows| - 1];
      WatchCountIsCount(init, accountId, u);
      assert rows == init + [rows[|rows| - 1]];
      FilterSnoc(init, rows[|rows| - 1], WatchedBy(accountId, u));
    }
  }

  /** The `countMap` loop. */
  method CountWatches(rows: seq<WatchRow>, accountId: string) returns (m: map<string, nat>)
    ensures m == WatchCounts(rows, accountId)
  {
    m := map[];
    var j := 0;
    while j < |rows|
      invariant 0 <= j <= |rows|
      invariant m == WatchCounts(rows[..j], accountId)
    {
      assert rows[..j + 1][..j] == rows[..j];
      if rows[j].accountId == accountId {
        var u := rows[j].username;
        m := m[u := CountIn(m, u) + 1];
      }
      j := j + 1;
    }
    assert rows[..j] == rows;
  }

  /** The loop that keeps the account's competitor rows. */
  method OwnCompetitors(rows: seq<CompetitorRow>, accountId: string) returns (own: seq<CompetitorRow>)
    ensures own == Filter(rows, OwnedBy(accountId))
  {
    own := [];
    var i := 0;
    while i < |rows|
      invariant 0 <= i <= |rows|
      invariant own == Filter(rows[..i], OwnedBy(accountId))
    {
      assert rows[..i + 1] == rows[..i] + [rows[i]];
      FilterSnoc(rows[..i], rows[i], OwnedBy(accountId));
      if rows[i].accountId == accountId {
        own := own + [rows[i]];
      }
      i := i + 1;
    }
    assert rows[..i] == rows;
  }

  function ViewOf(r: CompetitorRow, watchCount: Option<nat>): CompetitorView
  {
    CompetitorView(r.competitorId, r.username, r.displayName, r.category, r.followersCount,
                   r.followersUpdated, r.memo, r.createdAt, watchCount)
  }

  /** The watch count of a competitor: the counter's entry, when the watch sheet has rows. */
  function WatchCountOf(watchRows: seq<WatchRow>, accountId: string, username: string): Option<nat>
  {
    if |watchRows| > 0 then Some(CountIn(WatchCounts(watchRows, accountId), username)) else None
  }

  function CompetitorsOf(rows: seq<CompetitorRow>, watchRows: seq<WatchRow>, accountId: string): (vs: seq<CompetitorView>)
    ensures |vs| == |Filter(rows, OwnedBy(accountId))|
  {
    var own := Filter(rows, OwnedBy(accountId));
    seq(|own|, i requires 0 <= i < |own| =>
      ViewOf(own[i], WatchCountOf(watchRows, accountId, own[i].username)))
  }

  /** `getCompetitors`. */
  method GetCompetitors(sheet: Sheet<CompetitorRow>, watch: Sheet<WatchRow>, account: Option<Accounts.Account>)
    returns (vs: seq<CompetitorView>)
    ensures vs == CompetitorsOf(RowsIf(sheet.present, sheet.rows), RowsIf(watch.present, watch.rows), OwnerId(account))
  {
    var accountId := OwnerId(account);
    if !sheet.present || |sheet.rows| == 0 {
      return [];
    }
    var own := OwnCompetitors(sheet.rows, accountId);
    var counts: Option<map<string, nat>> := None;
    if watch.present && |watch.rows| > 0 {
      var m := CountWatches(watch.rows, accountId);
      counts := Some(m);
    }
    vs := seq(|own|, i requires 0 <= i < |own| =>
      ViewOf(own[i], if counts.Some? then Some(CountIn(counts.value, own[i].username)) else None));
  }

  /**
   * The list holds one entry per competitor row of the account, each taken
   * from such a row, with the number of the account's watch rows about that
   * user (when the watch sheet has rows).
   */
  lemma CompetitorsListed(rows: seq<CompetitorRow>, watchRows: seq<WatchRow>, accountId: string, i: nat)
    requires i < |CompetitorsOf(rows, watchRows, accountId)|
    ensures |CompetitorsOf(rows, watchRows, accountId)| == Count(rows, OwnedBy(accountId))
    ensures var v := CompetitorsOf(rows, watchRows, accountId)[i];
      && (exists k :: 0 <= k < |rows| && rows[k].accountId == accountId && v == ViewOf(rows[k], v.watchCount))
      && (|watchRows| > 0 ==> v.watchCount == Some(Count(watchRows, WatchedBy(accountId, v.username))))
      && (|watchRows| == 0 ==> v.watchCount.None?)
  {
    var own := Filter(rows, OwnedBy(accountId));
    FilterMember(rows, OwnedBy(accountId), own[i]);
    WatchCountIsCount(watchRows, accountId, own[i].username);
  }

  /** The request of `updateCompetitor`; None marks a field left undefined. */
  datatype CompetitorUpdate = CompetitorUpdate(
    competitorId: string, followersCount: Option<string>, category: Option<string>,
    memo: Option<string>, displayName: Option<string>)

  function HasCompetitorId(id: string): CompetitorRow -> bool
  {
    (r: CompetitorRow) => r.competitorId == id
  }

  /** The cells `updateCompetitor` writes: the supplied fields, and the follower stamp with the count. */
  function Updated(r: CompetitorRow, u: CompetitorUpdate, now: int): CompetitorRow
  {
    var a := if u.followersCount.Some? then r.(followersCount := IntOrZero(u.followersCount.value), followersUpdated := now) else r;
    var b := if u.category.Some? then a.(category := u.category.value) else a;
    var c := if u.memo.Some? then b.(memo := u.memo.value) else b;
    if u.displayName.Some? then c.(displayName := u.displayName.value) else c
  }

  /** The rows after the update of the first row with the id; None when no row has it. */
  function UpdatedRows(rows: seq<CompetitorRow>, u: CompetitorUpdate, now: int): Option<seq<CompetitorRow>>
  {
    match FirstWhere(rows, HasCompetitorId(u.competitorId))
    case Some(k) => Some(rows[k := Updated(rows[k], u, now)])
    case None => None
  }

  /**
   * `updateCompetitor`: a missing id, a missing sheet and an unknown id are
   * errors; otherwise the first row with the id is updated.
   */
  method UpdateCompetitor(sheet: Sheet<CompetitorRow>, u: CompetitorUpdate, now: int) returns (r: Result<bool>)
    modifies sheet
    ensures sheet.present == old(sheet.present) && sheet.headers == old(sheet.headers)
    ensures u.competitorId == "" ==> r == Err(IdMissingMessage) && sheet.rows == old(sheet.rows)
    ensures u.competitorId != "" && !sheet.present ==> r == Err(SheetMissingMessage) && sheet.rows == old(sheet.rows)
    ensures u.competitorId != "" && sheet.present ==>
      var after := UpdatedRows(old(sheet.rows), u, now);
      && (after.Some? ==> r == Ok(true) && sheet.rows == after.value)
      && (after.None? ==> r == Err(CompetitorNotFoundMessage) && sheet.rows == old(sheet.rows))
  {
    if u.competitorId == "" {
      return Err(IdMissingMessage);
    }
    if !sheet.present {
      return Err(SheetMissingMessage);
    }
    var k := FindFirst(sheet.rows, HasCompetitorId(u.competitorId));
    if k.None? {
      return Err(CompetitorNotFoundMessage);
    }
    sheet.SetRow(k.value, Updated(sheet.rows[k.value], u, now));
    r := Ok(true);
  }

  /**
   * An update writes exactly the supplied fields (and the follower stamp
   * with the count), never the id, the account or the user name.
   */
  lemma UpdateWritesGiven(r: CompetitorRow, u: CompetitorUpdate, now: int)
    ensures var n := Updated(r, u, now);
      && n.competitorId == r.competitorId && n.accountId == r.accountId && n.username == r.username
      && n.createdAt == r.createdAt
      && n.followersCount == (if u.followersCount.Some? then IntOrZero(u.followersCount.value) else r.followersCount)
      && n.followersUpdated == (if u.followersCount.Some? then now else r.followersUpdated)
      && n.category == (if u.category.Some? then u.category.value else r.category)
      && n.memo == (if u.memo.Some? then u.memo.value else r.memo)
      && n.displayName == (if u.displayName.Some? then u.displayName.value else r.displayName)
  {
  }

  /** An update touches one row and keeps every account's list free of duplicates. */
  lemma UpdateKeepsUnique(rows: seq<CompetitorRow>, u: CompetitorUpdate, now: int)
    requires UniqueCompetitors(rows) && UpdatedRows(rows, u, now).Some?
    ensures UniqueCompetitors(UpdatedRows(rows, u, now).value)
    ensures |UpdatedRows(rows, u, now).value| == |rows|
    ensures var k := FirstWhere(rows, HasCompetitorId(u.competitorId)).value;
      forall i :: 0 <= i < |rows| && i != k ==> UpdatedRows(rows, u, now).value[i] == rows[i]
  {
    var k := FirstWhere(rows, HasCompetitorId(u.competitorId)).value;
    var t := UpdatedRows(rows, u, now).value;
    UpdateWritesGiven(rows[k], u, now);
    assert forall i :: 0 <= i < |t| ==> t[i].accountId == rows[i].accountId && t[i].username == rows[i].username;
  }

  /** The rows without the last one `p` accepts; None when none does. */
  function WithoutLast<R>(rows: seq<R>, p: R -> bool): Option<seq<R>>
  {
    match LastWhere(rows, p)
    case Some(k) => Some(rows[..k] + rows[k + 1..])
    case None => None
  }

  /**
   * Deleting drops one row, the last match: the count of matches falls by
   * one and the rows before it are untouched.
   */
  lemma WithoutLastRemovesOne<R>(rows: seq<R>, p: R -> bool)
    requires WithoutLast(rows, p).Some?
    ensures var k := LastWhere(rows, p).value;
      && WithoutLast(rows, p).value[..k] == rows[..k]
      && Count(WithoutLast(rows, p).value, p) == Count(rows, p) - 1
      && forall j :: k <= j < |WithoutLast(rows, p).value| ==> !p(WithoutLast(rows, p).value[j])
  {
    var k := LastWhere(rows, p).value;
    assert rows == rows[..k] + [rows[k]] + rows[k + 1..];
    FilterConcat(rows[..k] + [rows[k]], rows[k + 1..], p);
    FilterConcat(rows[..k], [rows[k]], p);
    FilterConcat(rows[..k], rows[k + 1..], p);
    FilterNone(rows[k + 1..], p);
    assert [rows[k]][..0] == [];
  }

  /** Deleting by the id of the row just appended gives back the rows before it. */
  lemma WithoutLastUndoesAppend<R>(rows: seq<R>, row: R, p: R -> bool)
    requires p(row)
    ensures WithoutLast(rows + [row], p) == Some(rows)
  {
    var t := rows + [row];
    assert t[..|rows|] + t[|rows| + 1..] == rows;
  }

  /**
   * `deleteCompetitor`: a missing sheet and an unknown id are errors;
   * otherwise the last row with the id is deleted. An undefined id (None)
   * matches no row.
   */
  method DeleteCompetitor(sheet: Sheet<CompetitorRow>, competitorId: Option<string>) returns (r: Result<bool>)
    modifies sheet
    ensures sheet.present == old(sheet.present) && sheet.headers == old(sheet.headers)
    ensures !sheet.present ==> r == Err(SheetMissingMessage) && sheet.rows == old(sheet.rows)
    ensures sheet.present && competitorId.None? ==> r == Err(CompetitorNotFoundMessage) && sheet.rows == old(sheet.rows)
    ensures sheet.present && competitorId.Some? ==>
      var after := WithoutLast(old(sheet.rows), HasCompetitorId(competitorId.value));
      && (after.Some? ==> r == Ok(true) && sheet.rows == after.value)
      && (after.None? ==> r == Err(CompetitorNotFoundMessage) && sheet.rows == old(sheet.rows))
  {
    if !sheet.present {
      return Err(SheetMissingMessage);
    }
    if competitorId.None? {
      return Err(CompetitorNotFoundMessage);
    }
    var k := FindLast(sheet.rows, HasCompetitorId(competitorId.value));
    if k.None? {
      return Err(CompetitorNotFoundMessage);
    }
    sheet.DeleteRow(k.value);
    r := Ok(true);
  }

  // ------------------------------------------------------------ watch posts

  /** The request of `saveWatchPost`; an absent field is "". */
  datatype WatchParams = WatchParams(
    competitorUsername: string, postText: string, postUrl: string, mediaType: string,
    likes: string, replies: string, reposts: string, postDate: string, tags: string, memo: string)

  /** The thirteen columns `saveWatchPost` appends; `today` is the date part of the current ISO stamp. */
  function NewWatch(uuid: string, accountId: string, p: WatchParams, today: string, now: int): WatchRow
  {
    WatchRow("watch_" + Take(uuid, 8), accountId, CompetitorName(p.competitorUsername), Trim(p.postUrl),
             Trim(p.postText), ToUpper(OrDefault(p.mediaType, "TEXT")), IntOrZero(p.likes),
             IntOrZero(p.replies), IntOrZero(p.reposts), OrDefault(p.postDate, today), Trim(p.tags),
             Trim(p.memo), now)
  }

  /**
   * The competitor table after the automatic registration: unchanged when
   * the account already lists the user (or the nested `addCompetitor`
   * fails, its error being swallowed), else with the user appended under
   * the category '自動登録'.
   */
  function AutoRegistered(rows: seq<CompetitorRow>, accountId: string, username: string,
                          uuid: string, now: int): seq<CompetitorRow>
  {
    var name := CompetitorName(username);
    if FirstWhere(rows, SameCompetitor(accountId, username)).Some? then rows
    else if name == "" || FirstWhere(rows, SameCompetitor(accountId, name)).Some? then rows
    else rows + [NewCompetitor(uuid, accountId, CompetitorParams(username, "", AutoCategory, "", ""), now)]
  }

  /**
   * `saveWatchPost`: an empty user name or text and a missing watch sheet
   * are errors that change nothing; otherwise the post is appended and the
   * competitor registered in the account's list when it is not there yet.
   */
  method SaveWatchPost(watch: Sheet<WatchRow>, comps: Sheet<CompetitorRow>, account: Option<Accounts.Account>,
                       p: WatchParams, watchUuid: string, compUuid: string, today: string, now: int)
    returns (r: Result<string>)
    modifies watch, comps
    ensures watch.present == old(watch.present) && watch.headers == old(watch.headers)
    ensures comps.present == old(comps.present) && comps.headers == old(comps.headers)
    ensures var name := CompetitorName(p.competitorUsername);
      && (name == "" ==> r == Err(WatchNameMissingMessage))
      && (name != "" && Trim(p.postText) == "" ==> r == Err(PostTextMissingMessage))
      && (name != "" && Trim(p.postText) != "" && !watch.present ==> r == Err(WatchSheetMissingMessage))
      && (r.Err? ==> watch.rows == old(watch.rows) && comps.rows == old(comps.rows))
      && (name != "" && Trim(p.postText) != "" && watch.present ==>
            var row := NewWatch(watchUuid, OwnerId(account), p, today, now);
            && r == Ok(row.watchId)
            && watch.rows == old(watch.rows) + [row]
            && comps.rows == if comps.present then AutoRegistered(old(comps.rows), OwnerId(account), name, compUuid, now)
                             else old(comps.rows))
  {
    var name := CompetitorName(p.competitorUsername);
    if name == "" {
      return Err(WatchNameMissingMessage);
    }
    if Trim(p.postText) == "" {
      return Err(PostTextMissingMessage);
    }
    var accountId := OwnerId(account);
    if !watch.present {
      return Err(WatchSheetMissingMessage);
    }
    var row := NewWatch(watchUuid, accountId, p, today, now);
    watch.AppendRows([row]);
    if comps.present {
      var found := FindFirst(comps.rows, SameCompetitor(accountId, name));
      if found.None? {
        var _ := AddCompetitor(comps, account, CompetitorParams(name, "", AutoCategory, "", ""), compUuid, now);
      }
    }
    r := Ok(row.watchId);
  }

  /**
   * After saving, the account lists the competitor (when the name needs no
   * second trimming), and the automatic registration keeps every account's
   * list free of duplicates.
   */
  lemma AutoRegisteredListed(rows: seq<CompetitorRow>, accountId: string, username: string, uuid: string, now: int)
    requires username != "" && CompetitorName(username) == username
    ensures FirstWhere(AutoRegistered(rows, accountId, username, uuid, now), SameCompetitor(accountId, username)).Some?
    ensures UniqueCompetitors(rows) ==> UniqueCompetitors(AutoRegistered(rows, accountId, username, uuid, now))
  {
    var after := AutoRegistered(rows, accountId, username, uuid, now);
    var q := SameCompetitor(accountId, username);
    if FirstWhere(rows, q).None? {
      var row := NewCompetitor(uuid, accountId, CompetitorParams(username, "", AutoCategory, "", ""), now);
      assert after == rows + [row];
      assert q(after[|rows|]);
      if UniqueCompetitors(rows) {
        AddKeepsUnique(rows, row);
      }
    } else {
      var k := FirstWhere(rows, q).value;
      assert q(after[k]);
    }
    if FirstWhere(after, q).None? {
      assert false;
    }
  }

  /** The filter of `getWatchPosts`; an absent field is "". */
  datatype WatchFilter = WatchFilter(username: string, tags: string)

  /** A watch row `getWatchPosts` lists: the account's, of the user and holding the tag text, ignoring case. */
  function Listed(accountId: string, f: WatchFilter): WatchRow -> bool
  {
    (w: WatchRow) => w.accountId == accountId
      && (f.username == "" || ToLower(w.username) == ToLower(f.username))
      && (f.tags == "" || Contains(ToLower(w.tags), ToLower(f.tags)))
  }

  function CreatedKey(w: WatchRow): int
  {
    w.createdAt
  }

  /** `getWatchPosts` over the data rows (the listing drops only the account column). */
  function WatchPostsOf(rows: seq<WatchRow>, accountId: string, f: WatchFilter): seq<WatchRow>
  {
    SortDesc(Filter(rows, Listed(accountId, f)), CreatedKey)
  }

  /** The loop of `getWatchPosts` with its `continue`s. */
  method CollectWatch(rows: seq<WatchRow>, accountId: string, f: WatchFilter) returns (results: seq<WatchRow>)
    ensures results == Filter(rows, Listed(accountId, f))
  {
    results := [];
    var i := 0;
    while i < |rows|
      invariant 0 <= i <= |rows|
      invariant results == Filter(rows[..i], Listed(accountId, f))
    {
      assert rows[..i + 1] == rows[..i] + [rows[i]];
      FilterSnoc(rows[..i], rows[i], Listed(accountId, f));
      var w := rows[i];
      i := i + 1;
      if w.accountId != accountId {
        continue;
      }
      if f.username != "" && ToLower(w.username) != ToLower(f.username) {
        continue;
      }
      if f.tags != "" && !Contains(ToLower(w.tags), ToLower(f.tags)) {
        continue;
      }
      results := results + [w];
    }
    assert rows[..i] == rows;
  }

  method GetWatchPosts(sheet: Sheet<WatchRow>, account: Option<Accounts.Account>, f: WatchFilter)
    returns (posts: seq<WatchRow>)
    ensures posts == WatchPostsOf(RowsIf(sheet.present, sheet.rows), OwnerId(account), f)
  {
    if !sheet.present || |sheet.rows| == 0 {
      return [];
    }
    var results := CollectWatch(sheet.rows, OwnerId(account), f);
    posts := SortDesc(results, CreatedKey);
  }

  /**
   * A row is listed exactly when it is the account's, of the requested user
   * and holds the requested tag text (ignoring case); newest first.
   */
  lemma WatchPostsListed(rows: seq<WatchRow>, accountId: string, f: WatchFilter, w: WatchRow)
    ensures w in WatchPostsOf(rows, accountId, f) <==> w in rows && Listed(accountId, f)(w)
    ensures SortedDesc(WatchPostsOf(rows, accountId, f), CreatedKey)
  {
    SortDescMember(Filter(rows, Listed(accountId, f)), CreatedKey, w);
    if w in Filter(rows, Listed(accountId, f)) {
      FilterMember(rows, Listed(accountId, f), w);
    }
    if w in rows && Listed(accountId, f)(w) {
      var i :| 0 <= i < |rows| && rows[i] == w;
      FilterContains(rows, Listed(accountId, f), i);
    }
  }

  function WatchIdIs(id: string): WatchRow -> bool
  {
    (w: WatchRow) => w.watchId == id
  }

  /** `deleteWatchPost`: the last row with the id goes; a missing sheet and an unknown id are errors. */
  method DeleteWatchPost(sheet: Sheet<WatchRow>, watchId: Option<string>) returns (r: Result<bool>)
    modifies sheet
    ensures sheet.present == old(sheet.present) && sheet.headers == old(sheet.headers)
    ensures !sheet.present ==> r == Err(SheetMissingMessage) && sheet.rows == old(sheet.rows)
    ensures sheet.present && watchId.None? ==> r == Err(WatchNotFoundMessage) && sheet.rows == old(sheet.rows)
    ensures sheet.present && watchId.Some? ==>
      var after := WithoutLast(old(sheet.rows), WatchIdIs(watchId.value));
      && (after.Some? ==> r == Ok(true) && sheet.rows == after.value)
      && (after.None? ==> r == Err(WatchNotFoundMessage) && sheet.rows == old(sheet.rows))
  {
    if !sheet.present {
      return Err(SheetMissingMessage);
    }
    if watchId.None? {
      return Err(WatchNotFoundMessage);
    }
    var k := FindLast(sheet.rows, WatchIdIs(watchId.value));
    if k.None? {
      return Err(WatchNotFoundMessage);
    }
    sheet.DeleteRow(k.value);
    r := Ok(true);
  }

  // ------------------------------------------------------------ buzz selection

  function LikesKey(w: WatchRow): int
  {
    w.likes
  }

  /** The 15 most liked posts, most liked first (ties keep their order). */
  function TopLiked(posts: seq<WatchRow>): seq<WatchRow>
  {
    Take(SortDesc(posts, LikesKey), BuzzFallbackSize)
  }

  /**
   * The posts `analyzeBuzzPatterns` sends: the account's posts tagged
   * 'バズ'; when there are none, its 15 most liked posts; an error when the
   * account has no watch posts at all.
   */
  function BuzzPosts(rows: seq<WatchRow>, accountId: string): Result<seq<WatchRow>>
  {
    var tagged := WatchPostsOf(rows, accountId, WatchFilter("", BuzzTag));
    if |tagged| > 0 then Ok(tagged)
    else
      var all := WatchPostsOf(rows, accountId, WatchFilter("", ""));
      if |all| == 0 then Err(NoWatchPostsMessage) else Ok(TopLiked(all))
  }

  /** With tagged posts, exactly those are chosen. */
  lemma BuzzPrefersTagged(rows: seq<WatchRow>, accountId: string, w: WatchRow)
    requires exists i :: 0 <= i < |rows| && Listed(accountId, WatchFilter("", BuzzTag))(rows[i])
    ensures BuzzPosts(rows, accountId).Ok?
    ensures w in BuzzPosts(rows, accountId).value <==> w in rows && Listed(accountId, WatchFilter("", BuzzTag))(w)
  {
    var i :| 0 <= i < |rows| && Listed(accountId, WatchFilter("", BuzzTag))(rows[i]);
    WatchPostsListed(rows, accountId, WatchFilter("", BuzzTag), rows[i]);
    WatchPostsListed(rows, accountId, WatchFilter("", BuzzTag), w);
  }

  lemma NoTaggedPosts(rows: seq<WatchRow>, accountId: string)
    requires forall i :: 0 <= i < |rows| ==> !Listed(accountId, WatchFilter("", BuzzTag))(rows[i])
    ensures WatchPostsOf(rows, accountId, WatchFilter("", BuzzTag)) == []
  {
    FilterNone(rows, Listed(accountId, WatchFilter("", BuzzTag)));
  }

  /** The unfiltered listing is empty exactly when the account has no watch rows. */
  lemma NoPostsIff(rows: seq<WatchRow>, accountId: string)
    ensures |WatchPostsOf(rows, accountId, WatchFilter("", ""))| == 0 <==>
      forall i :: 0 <= i < |rows| ==> rows[i].accountId != accountId
  {
    var af := WatchFilter("", "");
    var all := WatchPostsOf(rows, accountId, af);
    if exists i :: 0 <= i < |rows| && rows[i].accountId == accountId {
      var i :| 0 <= i < |rows| && rows[i].accountId == accountId;
      WatchPostsListed(rows, accountId, af, rows[i]);
    }
    if |all| > 0 {
      WatchPostsListed(rows, accountId, af, all[0]);
    }
  }

  /**
   * Without tagged posts, the choice is an error exactly when the account
   * has no posts, and otherwise its most liked posts.
   */
  lemma BuzzFallback(rows: seq<WatchRow>, accountId: string)
    requires forall i :: 0 <= i < |rows| ==> !Listed(accountId, WatchFilter("", BuzzTag))(rows[i])
    ensures BuzzPosts(rows, accountId).Err? <==> forall i :: 0 <= i < |rows| ==> rows[i].accountId != accountId
    ensures BuzzPosts(rows, accountId).Ok? ==>
      BuzzPosts(rows, accountId).value == TopLiked(WatchPostsOf(rows, accountId, WatchFilter("", "")))
  {
    NoTaggedPosts(rows, accountId);
    NoPostsIff(rows, accountId);
  }

  /**
   * The fallback choice holds between one and 15 of the posts, the first
   * ones by likes: no post left out has more likes than one chosen.
   */
  lemma TopLikedFacts(posts: seq<WatchRow>)
    requires |posts| > 0
    ensures var chosen := TopLiked(posts);
      var sorted := SortDesc(posts, LikesKey);
      && 1 <= |chosen| <= BuzzFallbackSize
      && chosen == sorted[..|chosen|]
      && (forall i, j :: 0 <= i < |chosen| <= j < |sorted| ==> chosen[i].likes >= sorted[j].likes)
      && (forall w :: w in chosen ==> w in posts)
  {
    var sorted := SortDesc(posts, LikesKey);
    var chosen := TopLiked(posts);
    forall w | w in chosen ensures w in posts {
      SortDescMember(posts, LikesKey, w);
    }
  }
}
