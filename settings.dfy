/**
 * Sheets.js: creating the sheets the application needs, adding missing
 * header columns and settings keys, and reading and writing the key/value
 * settings sheet 設定.
 */
module Settings {
  import opened Common
  import opened Store

  // ------------------------------------------------------------ layout

  /** The initial contents of 設定: twelve keys, all blank but setup_completed. */
  function InitialSettings(): seq<SettingRow>
  {
    [
    SettingRow("app_id", ""), SettingRow("app_secret", ""), SettingRow("access_token", ""),
    SettingRow("user_id", ""), SettingRow("token_expires", ""), SettingRow("username", ""),
    SettingRow("profile_pic_url", ""), SettingRow("setup_completed", "FALSE"),
    SettingRow("spreadsheet_url", ""), SettingRow("app_url", ""),
    SettingRow("active_account", ""), SettingRow("gemini_api_key", "")]
  }

  const AccountHeaders := ["account_id", "access_token", "user_id", "username", "profile_pic_url",
    "token_expires", "created_at"]
  const AnalyticsHeaders := ["post_id", "account_id", "text", "media_type", "timestamp", "views",
    "likes", "replies", "reposts", "quotes", "shares", "engagement_rate", "permalink",
    "is_quote_post", "topic_tag", "fetched_at"]
  const TimeHeaders := ["account_id", "曜日", "0", "1", "2", "3", "4", "5", "6", "7", "8", "9",
    "10", "11", "12", "13", "14", "15", "16", "17", "18", "19", "20", "21", "22", "23"]
  const InsightHeaders := ["account_id", "date", "views", "likes", "replies", "reposts", "quotes",
    "clicks", "followers_count", "fetched_at"]
  const DraftHeaders := ["draft_id", "account_id", "text", "type", "created_at", "status", "source"]
  const CompetitorHeaders := ["competitor_id", "account_id", "username", "display_name", "category",
    "followers_count", "followers_updated", "memo", "created_at"]
  const WatchHeaders := ["watch_id", "account_id", "competitor_username", "post_url", "post_text",
    "media_type", "likes", "replies", "reposts", "post_date", "tags", "memo", "created_at"]
  const KeywordHeaders := ["account_id", "keyword", "search_mode", "search_type", "post_id",
    "username", "text", "media_type", "permalink", "timestamp", "has_replies", "is_quote_post",
    "is_reply", "fetched_at"]
  const HistoryHeaders := ["account_id", "keyword", "search_mode", "result_count", "searched_at"]

  /** The sheets `initializeSheets` looks after. */
  class Workbook {
    const settings: Sheet<SettingRow>
    const accounts: Sheet<AccountRow>
    const analytics: Sheet<PostRow>
    const timeSlots: Sheet<TimeRow>
    const insights: Sheet<InsightRow>
    const drafts: Sheet<DraftRow>
    const competitors: Sheet<CompetitorRow>
    const watch: Sheet<WatchRow>
    const keywordResults: Sheet<KeywordRow>
    const history: Sheet<HistoryRow>

    constructor (settings: Sheet<SettingRow>, accounts: Sheet<AccountRow>, analytics: Sheet<PostRow>, timeSlots: Sheet<TimeRow>, insights: Sheet<InsightRow>, drafts: Sheet<DraftRow>, competitors: Sheet<CompetitorRow>, watch: Sheet<WatchRow>, keywordResults: Sheet<KeywordRow>, history: Sheet<HistoryRow>)
      ensures this.settings == settings
      ensures this.accounts == accounts
      ensures this.analytics == analytics
      ensures this.timeSlots == timeSlots
      ensures this.insights == insights
      ensures this.drafts == drafts
      ensures this.competitors == competitors
      ensures this.watch == watch
      ensures this.keywordResults == keywordResults
      ensures this.history == history
    {
      this.settings := settings;
      this.accounts := accounts;
      this.analytics := analytics;
      this.timeSlots := timeSlots;
      this.insights := insights;
      this.drafts := drafts;
      this.competitors := competitors;
      this.watch := watch;
      this.keywordResults := keywordResults;
      this.history := history;
    }
  }

  // ------------------------------------------------------------ missing headers and keys

  function NotIn(present: seq<string>): string -> bool
  {
    (h: string) => h !in present
  }

  /** The header row `ensureSheetHeaders_` leaves: all of `required` on an empty row, else the missing ones appended. */
  function EnsuredHeaders(current: seq<string>, required: seq<string>): seq<string>
  {
    if current == [] then required else current + Filter(required, NotIn(current))
  }

  /**
   * `ensureSheetHeaders_`: an empty header row receives `required`; otherwise
   * each required header absent from the row as it was is appended at the end.
   */
  method EnsureSheetHeaders<R>(sheet: Sheet<R>, required: seq<string>)
    modifies sheet
    ensures sheet.headers == EnsuredHeaders(old(sheet.headers), required)
    ensures sheet.rows == old(sheet.rows) && sheet.present == old(sheet.present)
  {
    if sheet.headers == [] {
      sheet.SetHeaders(required);
      return;
    }
    var current := sheet.headers;
    var i := 0;
    while i < |required|
      invariant 0 <= i <= |required|
      invariant sheet.headers == current + Filter(required[..i], NotIn(current))
      invariant sheet.rows == old(sheet.rows) && sheet.present == old(sheet.present)
    {
      assert required[..i + 1][..i] == required[..i];
      if required[i] !in current {
        sheet.SetHeaders(sheet.headers + [required[i]]);
      }
      i := i + 1;
    }
    assert required[..i] == required;
  }

  /** The headers already there keep their columns and every required header is present. */
  lemma {:induction false} EnsuredHeadersComplete(current: seq<string>, required: seq<string>)
    ensures current != [] ==> EnsuredHeaders(current, required)[..|current|] == current
    ensures forall i :: 0 <= i < |required| ==> required[i] in EnsuredHeaders(current, required)
  {
    var r := EnsuredHeaders(current, required);
    forall i | 0 <= i < |required|
      ensures required[i] in r
    {
      if current != [] && required[i] !in current {
        FilterContains(required, NotIn(current), i);
      }
    }
  }

  /** A header row that already has every required header is left alone. */
  lemma {:induction false} EnsuredHeadersStable(current: seq<string>, required: seq<string>)
    requires current != []
    requires forall i :: 0 <= i < |required| ==> required[i] in current
    ensures EnsuredHeaders(current, required) == current
  {
    FilterNone(required, NotIn(current));
  }

  function Keys(rows: seq<SettingRow>): set<string>
  {
    set i | 0 <= i < |rows| :: rows[i].key
  }

  function KeyAbsent(keys: set<string>): SettingRow -> bool
  {
    (p: SettingRow) => p.key !in keys
  }

  /** `ensureSettingsKeys_`: every required key not in column A yet is appended with its default value. */
  method EnsureSettingsKeys(sheet: Sheet<SettingRow>, required: seq<SettingRow>)
    modifies sheet
    ensures sheet.rows == old(sheet.rows) + Filter(required, KeyAbsent(Keys(old(sheet.rows))))
    ensures sheet.headers == old(sheet.headers) && sheet.present == old(sheet.present)
  {
    var existing := Keys(sheet.rows);
    var i := 0;
    while i < |required|
      invariant 0 <= i <= |required|
      invariant sheet.rows == old(sheet.rows) + Filter(required[..i], KeyAbsent(existing))
      invariant sheet.headers == old(sheet.headers) && sheet.present == old(sheet.present)
    {
      assert required[..i + 1][..i] == required[..i];
      if required[i].key !in existing {
        sheet.AppendRows([required[i]]);
      }
      i := i + 1;
    }
    assert required[..i] == required;
  }

  /** After `ensureSettingsKeys_` every required key is present and the old rows are untouched. */
  lemma {:induction false} SettingsKeysComplete(rows: seq<SettingRow>, required: seq<SettingRow>)
    ensures forall i :: 0 <= i < |required| ==>
      required[i].key in Keys(rows + Filter(required, KeyAbsent(Keys(rows))))
  {
    var added := Filter(required, KeyAbsent(Keys(rows)));
    var all := rows + added;
    forall i | 0 <= i < |required|
      ensures required[i].key in Keys(all)
    {
      if required[i].key in Keys(rows) {
        var k :| 0 <= k < |rows| && rows[k].key == required[i].key;
        assert all[k] == rows[k];
      } else {
        FilterContains(required, KeyAbsent(Keys(rows)), i);
        var k :| 0 <= k < |added| && added[k] == required[i];
        assert all[|rows| + k] == added[k];
      }
    }
  }

  /**
   * `initializeSheets`: a missing sheet is created with its headers (設定
   * with its twelve initial keys); an existing one only gains the header
   * columns or settings keys it lacks, and keeps its data rows.
   */
  method InitializeSheets(wb: Workbook)
    modifies wb.settings, wb.accounts, wb.analytics, wb.timeSlots, wb.insights
    modifies wb.drafts, wb.competitors, wb.watch, wb.keywordResults, wb.history
    ensures wb.settings.present && SettingsEnsured(old(wb.settings.present), old(wb.settings.rows), wb.settings.rows)
    ensures wb.accounts.present && SheetEnsured(old(wb.accounts.present), old(wb.accounts.headers), old(wb.accounts.rows), wb.accounts.headers, wb.accounts.rows, AccountHeaders)
    ensures wb.analytics.present && SheetEnsured(old(wb.analytics.present), old(wb.analytics.headers), old(wb.analytics.rows), wb.analytics.headers, wb.analytics.rows, AnalyticsHeaders)
    ensures wb.timeSlots.present && SheetEnsured(old(wb.timeSlots.present), old(wb.timeSlots.headers), old(wb.timeSlots.rows), wb.timeSlots.headers, wb.timeSlots.rows, TimeHeaders)
    ensures wb.insights.present && SheetEnsured(old(wb.insights.present), old(wb.insights.headers), old(wb.insights.rows), wb.insights.headers, wb.insights.rows, InsightHeaders)
    ensures wb.drafts.present && SheetEnsured(old(wb.drafts.present), old(wb.drafts.headers), old(wb.drafts.rows), wb.drafts.headers, wb.drafts.rows, DraftHeaders)
    ensures wb.competitors.present && SheetEnsured(old(wb.competitors.present), old(wb.competitors.headers), old(wb.competitors.rows), wb.competitors.headers, wb.competitors.rows, CompetitorHeaders)
    ensures wb.watch.present && SheetEnsured(old(wb.watch.present), old(wb.watch.headers), old(wb.watch.rows), wb.watch.headers, wb.watch.rows, WatchHeaders)
    ensures wb.keywordResults.present && SheetEnsured(old(wb.keywordResults.present), old(wb.keywordResults.headers), old(wb.keywordResults.rows), wb.keywordResults.headers, wb.keywordResults.rows, KeywordHeaders)
    ensures wb.history.present && SheetEnsured(old(wb.history.present), old(wb.history.headers), old(wb.history.rows), wb.history.headers, wb.history.rows, HistoryHeaders)
  {
    InitializeFirstSheets(wb);
    InitializeLaterSheets(wb);
  }

  /** The first five entries of the list `initializeSheets` walks. */
  method InitializeFirstSheets(wb: Workbook)
    modifies wb.settings, wb.accounts, wb.analytics, wb.timeSlots, wb.insights
    ensures wb.settings.present && SettingsEnsured(old(wb.settings.present), old(wb.settings.rows), wb.settings.rows)
    ensures wb.accounts.present && SheetEnsured(old(wb.accounts.present), old(wb.accounts.headers), old(wb.accounts.rows), wb.accounts.headers, wb.accounts.rows, AccountHeaders)
    ensures wb.analytics.present && SheetEnsured(old(wb.analytics.present), old(wb.analytics.headers), old(wb.analytics.rows), wb.analytics.headers, wb.analytics.rows, AnalyticsHeaders)
    ensures wb.timeSlots.present && SheetEnsured(old(wb.timeSlots.present), old(wb.timeSlots.headers), old(wb.timeSlots.rows), wb.timeSlots.headers, wb.timeSlots.rows, TimeHeaders)
    ensures wb.insights.present && SheetEnsured(old(wb.insights.present), old(wb.insights.headers), old(wb.insights.rows), wb.insights.headers, wb.insights.rows, InsightHeaders)
  {
    EnsureSettingsSheet(wb.settings);
    EnsureSheet(wb.accounts, AccountHeaders);
    EnsureSheet(wb.analytics, AnalyticsHeaders);
    EnsureSheet(wb.timeSlots, TimeHeaders);
    EnsureSheet(wb.insights, InsightHeaders);
  }

  /** The last five entries of the list `initializeSheets` walks. */
  method InitializeLaterSheets(wb: Workbook)
    modifies wb.drafts, wb.competitors, wb.watch, wb.keywordResults, wb.history
    ensures wb.drafts.present && SheetEnsured(old(wb.drafts.present), old(wb.drafts.headers), old(wb.drafts.rows), wb.drafts.headers, wb.drafts.rows, DraftHeaders)
    ensures wb.competitors.present && SheetEnsured(old(wb.competitors.present), old(wb.competitors.headers), old(wb.competitors.rows), wb.competitors.headers, wb.competitors.rows, CompetitorHeaders)
    ensures wb.watch.present && SheetEnsured(old(wb.watch.present), old(wb.watch.headers), old(wb.watch.rows), wb.watch.headers, wb.watch.rows, WatchHeaders)
    ensures wb.keywordResults.present && SheetEnsured(old(wb.keywordResults.present), old(wb.keywordResults.headers), old(wb.keywordResults.rows), wb.keywordResults.headers, wb.keywordResults.rows, KeywordHeaders)
    ensures wb.history.present && SheetEnsured(old(wb.history.present), old(wb.history.headers), old(wb.history.rows), wb.history.headers, wb.history.rows, HistoryHeaders)
    ensures unchanged(wb.settings, wb.accounts, wb.analytics, wb.timeSlots, wb.insights)
  {
    EnsureSheet(wb.drafts, DraftHeaders);
    EnsureSheet(wb.competitors, CompetitorHeaders);
    EnsureSheet(wb.watch, WatchHeaders);
    EnsureSheet(wb.keywordResults, KeywordHeaders);
    EnsureSheet(wb.history, HistoryHeaders);
  }

  /**
   * What `initializeSheets` does to 設定: a missing sheet is created holding
   * the initial keys; an existing one gains the keys it lacks at the bottom.
   */
  predicate SettingsEnsured(wasPresent: bool, oldRows: seq<SettingRow>, rows: seq<SettingRow>)
  {
    rows == if wasPresent then oldRows + Filter(InitialSettings(), KeyAbsent(Keys(oldRows)))
            else InitialSettings()
  }

  method EnsureSettingsSheet(sheet: Sheet<SettingRow>)
    modifies sheet
    ensures sheet.present && SettingsEnsured(old(sheet.present), old(sheet.rows), sheet.rows)
  {
    if !sheet.present {
      sheet.Insert([]);
      sheet.AppendRows(InitialSettings());
    } else {
      EnsureSettingsKeys(sheet, InitialSettings());
    }
  }

  /**
   * What `initializeSheets` does to one sheet with a header row: a missing
   * sheet is created with `headers` and no data; an existing one keeps its
   * rows and has the missing headers appended.
   */
  predicate SheetEnsured<R(==)>(wasPresent: bool, oldHeaders: seq<string>, oldRows: seq<R>,
                               newHeaders: seq<string>, newRows: seq<R>, headers: seq<string>)
  {
    if wasPresent then newRows == oldRows && newHeaders == EnsuredHeaders(oldHeaders, headers)
    else newHeaders == headers && newRows == []
  }

  /** One step of `initializeSheets` for a sheet with a header row. */
  method EnsureSheet<R(==)>(sheet: Sheet<R>, headers: seq<string>)
    modifies sheet
    ensures sheet.present && SheetEnsured(old(sheet.present), old(sheet.headers), old(sheet.rows), sheet.headers, sheet.rows, headers)
  {
    if !sheet.present {
      sheet.Insert(headers);
    } else {
      EnsureSheetHeaders(sheet, headers);
    }
  }

  // ------------------------------------------------------------ reading settings

  /** The settings object `getSettings` builds: rows with a blank key are skipped, a later row overrides an earlier one. */
  function SettingsOf(rows: seq<SettingRow>): map<string, string>
  {
    if |rows| == 0 then map[]
    else
      var last := rows[|rows| - 1];
      var m := SettingsOf(rows[..|rows| - 1]);
      if last.key != "" then m[last.key := last.value] else m
  }

  /** What `getSettings` returns for a sheet that may be missing. */
  function SettingsView(present: bool, rows: seq<SettingRow>): map<string, string>
  {
    if present then SettingsOf(rows) else map[]
  }

  /** `settings[key]` read as a string; a missing key reads as "" (falsy). */
  function Setting(m: map<string, string>, key: string): string
  {
    if key in m then m[key] else ""
  }

  /** `getSettings`: a missing sheet reads as no settings. */
  method GetSettings(sheet: Sheet<SettingRow>) returns (m: map<string, string>)
    ensures m == SettingsView(sheet.present, sheet.rows)
  {
    m := map[];
    if !sheet.present {
      return;
    }
    var data := sheet.rows;
    var i := 0;
    while i < |data|
      invariant 0 <= i <= |data|
      invariant m == SettingsOf(data[..i])
    {
      assert data[..i + 1][..i] == data[..i];
      if data[i].key != "" {
        m := m[data[i].key := data[i].value];
      }
      i := i + 1;
    }
    assert data[..i] == data;
  }

  /** A key is read iff some row carries it, and it reads the value of the last such row. */
  lemma {:induction false} SettingsOfLastRowWins(rows: seq<SettingRow>, i: nat)
    requires i < |rows| && rows[i].key != ""
    requires forall j :: i < j < |rows| ==> rows[j].key != rows[i].key
    ensures rows[i].key in SettingsOf(rows) && SettingsOf(rows)[rows[i].key] == rows[i].value
    decreases |rows|
  {
    if i < |rows| - 1 {
      var init := rows[..|rows| - 1];
      SettingsOfLastRowWins(init, i);
    }
  }

  lemma {:induction false} SettingsOfDomain(rows: seq<SettingRow>, key: string)
    ensures key in SettingsOf(rows) <==> key != "" && exists i :: 0 <= i < |rows| && rows[i].key == key
    decreases |rows|
  {
    if |rows| > 0 {
      var init := rows[..|rows| - 1];
      SettingsOfDomain(init, key);
      if exists i :: 0 <= i < |init| && init[i].key == key {
        var i :| 0 <= i < |init| && init[i].key == key;
        assert rows[i].key == key;
      }
      if exists i :: 0 <= i < |rows| && rows[i].key == key {
        var i :| 0 <= i < |rows| && rows[i].key == key;
        if i < |init| {
          assert init[i].key == key;
        }
      }
    }
  }

  // ------------------------------------------------------------ saving settings

  /** A save request: the own properties of `params` in order; `None` is null or undefined. */
  type Params = seq<(string, Option<string>)>

  predicate DistinctKeys(params: Params)
  {
    forall i, j :: 0 <= i < j < |params| ==> params[i].0 != params[j].0
  }

  /** `params[key]` when `params` has that own property. */
  function Param(params: Params, key: string): Option<Option<string>>
  {
    if |params| == 0 then None
    else if params[0].0 == key then Some(params[0].1)
    else Param(params[1..], key)
  }

  predicate IsLowerHex(c: char)
  {
    IsDigit(c) || 'a' <= c <= 'f'
  }

  /** `/^\d{10,20}$/` */
  predicate ValidAppId(s: string)
  {
    10 <= |s| <= 20 && forall i :: 0 <= i < |s| ==> IsDigit(s[i])
  }

  /** `/^[a-f0-9]{20,40}$/` */
  predicate ValidAppSecret(s: string)
  {
    20 <= |s| <= 40 && forall i :: 0 <= i < |s| ==> IsLowerHex(s[i])
  }

  /** `String(params[key] || '').trim()` for a key `params` has. */
  function TrimmedParam(v: Option<string>): string
  {
    match v
    case None => ""
    case Some(s) => Trim(s)
  }

  /** An app_id or app_secret that is supplied, not blank after trimming, and malformed. */
  predicate Malformed(params: Params)
  {
    (Param(params, "app_id").Some? && TrimmedParam(Param(params, "app_id").value) != ""
      && !ValidAppId(TrimmedParam(Param(params, "app_id").value)))
    || (Param(params, "app_secret").Some? && TrimmedParam(Param(params, "app_secret").value) != ""
      && !ValidAppSecret(TrimmedParam(Param(params, "app_secret").value)))
  }

  const MalformedInputMessage := "入力形式が正しくありません"

  datatype SaveOutcome = Saved | Rejected(error: string)

  /** The first row whose key is `key`, if any. */
  function FirstKeyIndex(rows: seq<SettingRow>, key: string): (r: Option<nat>)
    ensures r.Some? ==> r.value < |rows| && rows[r.value].key == key
    ensures r.Some? ==> forall j :: 0 <= j < r.value ==> rows[j].key != key
    ensures r.None? ==> forall j :: 0 <= j < |rows| ==> rows[j].key != key
  {
    if |rows| == 0 then None
    else if rows[0].key == key then Some(0)
    else match FirstKeyIndex(rows[1..], key)
      case None => None
      case Some(k) => Some(k + 1)
  }

  /** One key of a save: the first row with that key gets the value, else a new row is appended. */
  function Upsert(rows: seq<SettingRow>, key: string, value: string): seq<SettingRow>
  {
    match FirstKeyIndex(rows, key)
    case Some(i) => rows[i := SettingRow(key, value)]
    case None => rows + [SettingRow(key, value)]
  }

  /** The rows after writing every non-null property of `params` in order. */
  function SavedRows(rows: seq<SettingRow>, params: Params): seq<SettingRow>
  {
    if |params| == 0 then rows
    else
      var prefix := SavedRows(rows, params[..|params| - 1]);
      var last := params[|params| - 1];
      if last.1.None? then prefix else Upsert(prefix, last.0, last.1.value)
  }

  /** The rows of 設定 as `saveSettings` finds them: none when it has to insert the sheet. */
  function RowsOrNone(present: bool, rows: seq<SettingRow>): seq<SettingRow>
  {
    if present then rows else []
  }

  /**
   * `saveSettings`: a malformed app_id or app_secret rejects the whole
   * request before anything is written; otherwise every non-null property is
   * written over the first row carrying its key in the sheet as it was read,
   * or appended as a new row.
   */
  method SaveSettings(sheet: Sheet<SettingRow>, params: Params) returns (outcome: SaveOutcome)
    requires DistinctKeys(params)
    modifies sheet
    ensures outcome == if Malformed(params) then Rejected(MalformedInputMessage) else Saved
    ensures sheet.present
    ensures outcome.Rejected? ==> sheet.rows == RowsOrNone(old(sheet.present), old(sheet.rows))
    ensures outcome.Saved? ==> sheet.rows == SavedRows(RowsOrNone(old(sheet.present), old(sheet.rows)), params)
  {
    if !sheet.present {
      sheet.Insert([]);
    }
    var appId := Param(params, "app_id");
    if appId.Some? {
      var t := TrimmedParam(appId.value);
      if t != "" && !ValidAppId(t) {
        return Rejected(MalformedInputMessage);
      }
    }
    var appSecret := Param(params, "app_secret");
    if appSecret.Some? {
      var t := TrimmedParam(appSecret.value);
      if t != "" && !ValidAppSecret(t) {
        return Rejected(MalformedInputMessage);
      }
    }
    WriteParams(sheet, params);
    return Saved;
  }

  function ParamKeys(params: Params): set<string>
  {
    set q | 0 <= q < |params| :: params[q].0
  }

  /** The write loop of `saveSettings`, searching the rows as they were read before it. */
  method WriteParams(sheet: Sheet<SettingRow>, params: Params)
    requires DistinctKeys(params)
    modifies sheet
    ensures sheet.rows == SavedRows(old(sheet.rows), params)
    ensures sheet.headers == old(sheet.headers) && sheet.present == old(sheet.present)
  {
    var data := sheet.rows;
    var p := 0;
    while p < |params|
      invariant 0 <= p <= |params|
      invariant sheet.rows == SavedRows(data, params[..p])
      invariant |data| <= |sheet.rows|
      invariant forall i :: 0 <= i < |data| ==> sheet.rows[i].key == data[i].key
      invariant forall i :: |data| <= i < |sheet.rows| ==> sheet.rows[i].key in ParamKeys(params[..p])
      invariant sheet.headers == old(sheet.headers) && sheet.present == old(sheet.present)
    {
      assert params[..p + 1][..p] == params[..p];
      var key := params[p].0;
      var value := params[p].1;
      assert key !in ParamKeys(params[..p]);
      if value.Some? {
        WriteParam(sheet, data, key, value.value, ParamKeys(params[..p]));
      }
      assert ParamKeys(params[..p + 1]) == ParamKeys(params[..p]) + {key};
      p := p + 1;
    }
    assert params[..p] == params;
  }

  /**
   * One write of `saveSettings`: the first row of the rows as read that
   * carries `key` is overwritten, else a row is appended. Rows appended by
   * earlier writes carry other keys (`written`), so searching the rows as
   * read finds the same row as searching the current ones.
   */
  method WriteParam(sheet: Sheet<SettingRow>, data: seq<SettingRow>, key: string, value: string, ghost written: set<string>)
    requires |data| <= |sheet.rows|
    requires forall i :: 0 <= i < |data| ==> sheet.rows[i].key == data[i].key
    requires forall i :: |data| <= i < |sheet.rows| ==> sheet.rows[i].key in written
    requires key !in written
    modifies sheet
    ensures sheet.rows == Upsert(old(sheet.rows), key, value)
    ensures |data| <= |sheet.rows|
    ensures forall i :: 0 <= i < |data| ==> sheet.rows[i].key == data[i].key
    ensures forall i :: |data| <= i < |sheet.rows| ==> sheet.rows[i].key in written + {key}
    ensures sheet.headers == old(sheet.headers) && sheet.present == old(sheet.present)
  {
    var found := FindKey(data, key);
    SameFirstKey(data, sheet.rows, key);
    if found.Some? {
      sheet.SetRow(found.value, SettingRow(key, value));
    } else {
      sheet.AppendRows([SettingRow(key, value)]);
    }
  }

  /** The search of the rows read before the writes for `key`. */
  method FindKey(data: seq<SettingRow>, key: string) returns (found: Option<nat>)
    ensures found == FirstKeyIndex(data, key)
  {
    var i := 0;
    while i < |data|
      invariant 0 <= i <= |data|
      invariant forall j :: 0 <= j < i ==> data[j].key != key
    {
      if data[i].key == key {
        return Some(i);
      }
      i := i + 1;
    }
    return None;
  }

  /** Rows appended during the save never carry a key still to be written, so the stale read finds the same row. */
  lemma SameFirstKey(data: seq<SettingRow>, rows: seq<SettingRow>, key: string)
    requires |data| <= |rows|
    requires forall i :: 0 <= i < |data| ==> rows[i].key == data[i].key
    requires forall j :: |data| <= j < |rows| ==> rows[j].key != key
    ensures FirstKeyIndex(rows, key) == FirstKeyIndex(data, key)
  {
    var a := FirstKeyIndex(rows, key);
    var b := FirstKeyIndex(data, key);
    if a.Some? && b.Some? {
      assert a.value == b.value;
    }
  }

  /** No two rows share a non-blank key. */
  predicate UniqueKeys(rows: seq<SettingRow>)
  {
    forall i, j :: 0 <= i < j < |rows| && rows[i].key != "" ==> rows[i].key != rows[j].key
  }

  lemma {:induction false} SettingsOfSetRow(rows: seq<SettingRow>, i: nat, key: string, value: string)
    requires UniqueKeys(rows) && i < |rows| && rows[i].key == key && key != ""
    ensures SettingsOf(rows[i := SettingRow(key, value)]) == SettingsOf(rows)[key := value]
    decreases |rows|
  {
    var init := rows[..|rows| - 1];
    var rows' := rows[i := SettingRow(key, value)];
    if i == |rows| - 1 {
      assert rows'[..|rows'| - 1] == init;
    } else {
      assert rows'[..|rows'| - 1] == init[i := SettingRow(key, value)];
      SettingsOfSetRow(init, i, key, value);
    }
  }

  /** With unique keys, writing one key through `Upsert` is exactly a map update for `getSettings`. */
  lemma {:induction false} UpsertIsMapUpdate(rows: seq<SettingRow>, key: string, value: string)
    requires UniqueKeys(rows) && key != ""
    ensures SettingsOf(Upsert(rows, key, value)) == SettingsOf(rows)[key := value]
    ensures UniqueKeys(Upsert(rows, key, value))
  {
    match FirstKeyIndex(rows, key)
    case Some(i) =>
      SettingsOfSetRow(rows, i, key, value);
    case None =>
      assert (rows + [SettingRow(key, value)])[..|rows|] == rows;
  }

  /** `params` applied to a settings object, property after property. */
  function Apply(m: map<string, string>, params: Params): map<string, string>
  {
    if |params| == 0 then m
    else
      var prefix := Apply(m, params[..|params| - 1]);
      var (k, v) := params[|params| - 1];
      if v.None? then prefix else prefix[k := v.value]
  }

  /**
   * The round trip between the two halves of the settings store: after a
   * save, `getSettings` reads the old settings updated with every non-null
   * property of the request (when the sheet had no repeated key and no
   * property name is blank).
   */
  lemma {:induction false} SaveThenGet(rows: seq<SettingRow>, params: Params)
    requires UniqueKeys(rows)
    requires forall q :: 0 <= q < |params| ==> params[q].0 != ""
    ensures SettingsOf(SavedRows(rows, params)) == Apply(SettingsOf(rows), params)
    ensures UniqueKeys(SavedRows(rows, params))
    decreases |params|
  {
    if |params| > 0 {
      var init := params[..|params| - 1];
      SaveThenGet(rows, init);
      var (k, v) := params[|params| - 1];
      if v.Some? {
        UpsertIsMapUpdate(SavedRows(rows, init), k, v.value);
      }
    }
  }
}
