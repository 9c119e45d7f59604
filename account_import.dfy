/**
 * Bringing credentials over from another spreadsheet: importing its
 * authenticated account as a new account, and scanning its sheets for
 * known setting keys.
 */
module AccountImport {
  import opened Common
  import opened Store
  import Settings
  import Accounts

  // ------------------------------------------------------------ importing the account of another workbook

  const ImportErrorPrefix := "インポートエラー: "
  const NotAuthenticatedMessage := "インポート元で認証が完了していません。"
  const AlreadyAddedMessage := "このアカウントは既に追加されています。"

  /** What `importAccountFromSheet` reports. */
  datatype Imported = Imported(accountId: string, username: string, message: string)

  /** The name shown for the imported account: its username, else its user id. */
  function DisplayName(s: map<string, string>): string
  {
    OrDefault(Settings.Setting(s, "username"), Settings.Setting(s, "user_id"))
  }

  /** The account data built from the other workbook's 設定; a blank expiry is no expiry. */
  function ImportedData(s: map<string, string>, parseDate: string -> Option<int>): Accounts.AccountData
  {
    var expires := Settings.Setting(s, "token_expires");
    Accounts.AccountData("", Settings.Setting(s, "access_token"), Settings.Setting(s, "user_id"),
                         Settings.Setting(s, "username"), Settings.Setting(s, "profile_pic_url"),
                         if expires == "" then None else parseDate(expires))
  }

  /** No listed account belongs to the user, so `addAccount` finds no row to overwrite. */
  lemma NoListedUser(rows: seq<AccountRow>, userId: string)
    requires forall a :: a in Accounts.AccountsOf(true, rows) ==> a.userId != userId
    ensures Accounts.FirstUserRow(rows, userId).None?
  {
    if Accounts.FirstUserRow(rows, userId).Some? {
      Accounts.AccountsListed(rows, rows[Accounts.FirstUserRow(rows, userId).value]);
    }
  }

  /**
   * `importAccountFromSheet`, given what reading the other workbook's
   * 設定 gave (`source`; an error stands for a workbook that cannot be
   * opened). An imported account is always appended as a new row, never
   * written over an existing one, and it becomes the active account.
   */
  method ImportAccountFromSheet(accounts: Sheet<AccountRow>, settings: Sheet<SettingRow>,
                                source: Result<map<string, string>>, parseDate: string -> Option<int>, now: int)
    returns (r: Result<Imported>)
    modifies accounts, settings
    ensures source.Err? ==> r == Err(ImportErrorPrefix + source.error)
    ensures source.Ok? && (Settings.Setting(source.value, "access_token") == "" || Settings.Setting(source.value, "user_id") == "")
      ==> r == Err(NotAuthenticatedMessage)
    ensures source.Ok? && Settings.Setting(source.value, "access_token") != "" && Settings.Setting(source.value, "user_id") != ""
      ==> var list := Accounts.AccountsOf(old(accounts.present), old(accounts.rows));
          && ((exists i :: 0 <= i < |list| && list[i].userId == Settings.Setting(source.value, "user_id"))
                ==> r == Err(AlreadyAddedMessage))
          && (!old(accounts.present) ==> r == Err(ImportErrorPrefix + Accounts.AccountsSheetMissingMessage))
          && ((old(accounts.present) && forall i :: 0 <= i < |list| ==> list[i].userId != Settings.Setting(source.value, "user_id"))
                ==> r.Ok?)
    ensures r.Err? ==> accounts.rows == old(accounts.rows) && settings.rows == old(settings.rows)
    ensures r.Ok? ==>
      && source.Ok? && old(accounts.present)
      && var row := Accounts.AccountRowOf(ImportedData(source.value, parseDate), now);
      && accounts.rows == old(accounts.rows) + [row]
      && r.value == Imported(row.accountId, DisplayName(source.value), "@" + DisplayName(source.value) + " をインポートしました")
      && settings.present
      && settings.rows == Settings.SavedRows(Settings.RowsOrNone(old(settings.present), old(settings.rows)),
                                             Accounts.ActiveParams(row.accountId))
    ensures accounts.present == old(accounts.present) && accounts.headers == old(accounts.headers)
  {
    if source.Err? {
      return Err(ImportErrorPrefix + source.error);
    }
    var s := source.value;
    var userId := Settings.Setting(s, "user_id");
    if Settings.Setting(s, "access_token") == "" || userId == "" {
      return Err(NotAuthenticatedMessage);
    }
    var list := Accounts.AccountsOf(accounts.present, accounts.rows);
    var i := 0;
    while i < |list|
      invariant 0 <= i <= |list|
      invariant forall j :: 0 <= j < i ==> list[j].userId != userId
    {
      if list[i].userId == userId {
        return Err(AlreadyAddedMessage);
      }
      i := i + 1;
    }
    if accounts.present {
      NoListedUser(accounts.rows, userId);
    }
    var data := ImportedData(s, parseDate);
    var added := Accounts.AddAccount(accounts, settings, data, now);
    if added.Err? {
      return Err(ImportErrorPrefix + added.error);
    }
    var name := DisplayName(s);
    return Ok(Imported(added.value.accountId, name, "@" + name + " をインポートしました"));
  }

  // ------------------------------------------------------------ the spreadsheet id

  const IdRequiredMessage := "スプレッドシートIDが必要です"
  const BadIdMessage := "スプレッドシートIDの形式が正しくありません"
  const NoAccessMessage := "スプレッドシートにアクセスできません。共有設定を確認してください。"

  /** A character of `[a-zA-Z0-9_-]`. */
  predicate IdChar(c: char)
  {
    'a' <= c <= 'z' || 'A' <= c <= 'Z' || '0' <= c <= '9' || c == '_' || c == '-'
  }

  /** `^[a-zA-Z0-9_-]{20,60}$` */
  predicate ValidSheetId(s: string)
  {
    20 <= |s| <= 60 && forall i :: 0 <= i < |s| ==> IdChar(s[i])
  }

  /** `/\/d\/([a-zA-Z0-9_-]+)/` can match at `i`. */
  predicate MarkerAt(s: string, i: nat)
  {
    i + 3 < |s| && s[i..i + 3] == "/d/" && IdChar(s[i + 3])
  }

  /** The longest run of id characters starting at `i`. */
  function IdRun(s: string, i: nat): (r: string)
    requires i <= |s|
    ensures i + |r| <= |s| && r == s[i..i + |r|]
    ensures forall k :: 0 <= k < |r| ==> IdChar(r[k])
    ensures i + |r| == |s| || !IdChar(s[i + |r|])
    decreases |s| - i
  {
    if i < |s| && IdChar(s[i]) then [s[i]] + IdRun(s, i + 1) else []
  }

  /** The leftmost position at or after `i` where the pattern matches. */
  function MarkerFrom(s: string, i: nat): (r: Option<nat>)
    ensures r.Some? ==> i <= r.value && MarkerAt(s, r.value)
    ensures r.Some? ==> forall k :: i <= k < r.value ==> !MarkerAt(s, k)
    ensures r.None? ==> forall k :: i <= k ==> !MarkerAt(s, k)
    decreases |s| - i
  {
    if i + 3 >= |s| then None
    else if MarkerAt(s, i) then Some(i)
    else MarkerFrom(s, i + 1)
  }

  /** The id captured from a spreadsheet URL, or the text itself when the pattern does not match. */
  function ExtractId(s: string): string
  {
    match MarkerFrom(s, 0)
    case Some(i) => IdRun(s, i + 3)
    case None => s
  }

  /** The id `importFromExternalSheet` opens: trimmed, taken from a URL if it is one, then checked. */
  function NormalizeSheetId(input: Option<string>): (r: Result<string>)
    ensures r.Ok? ==> ValidSheetId(r.value)
    ensures input.None? || input.value == "" ==> r == Err(IdRequiredMessage)
  {
    if input.None? || input.value == "" then Err(IdRequiredMessage)
    else
      var raw := ExtractId(Trim(input.value));
      if ValidSheetId(raw) then Ok(raw) else Err(BadIdMessage)
  }

  /** A bare id is accepted as it is. */
  lemma PlainIdAccepted(id: string)
    requires ValidSheetId(id)
    ensures NormalizeSheetId(Some(id)) == Ok(id)
  {
    IdUntrimmed(id);
    IdNotExtracted(id);
  }

  lemma IdUntrimmed(id: string)
    requires ValidSheetId(id)
    ensures Trim(id) == id
  {
    TrimStartFixed(id);
    TrimEndFixed(id);
  }

  lemma IdNotExtracted(id: string)
    requires ValidSheetId(id)
    ensures ExtractId(id) == id
  {
    forall k: nat ensures !MarkerAt(id, k) {
      NoMarkerWithoutSlash(id, k);
    }
  }

  lemma NoMarkerWithoutSlash(s: string, k: nat)
    requires forall i :: 0 <= i < |s| ==> s[i] != '/'
    ensures !MarkerAt(s, k)
  {
    if k + 3 < |s| {
      assert s[k..k + 3][0] == s[k];
    }
  }

  lemma {:induction false} IdRunExact(s: string, i: nat, n: nat)
    requires i + n <= |s|
    requires forall k :: i <= k < i + n ==> IdChar(s[k])
    requires i + n == |s| || !IdChar(s[i + n])
    ensures IdRun(s, i) == s[i..i + n]
    decreases n
  {
    if n > 0 {
      IdRunExact(s, i + 1, n - 1);
      assert s[i..i + n] == [s[i]] + s[i + 1..i + n];
    }
  }

  /**
   * The id inside a URL `p/d/<id>q` is the one extracted, as long as the
   * pattern matches nowhere earlier and the id is not followed by further
   * id characters.
   */
  lemma {:induction false} UrlIdExtracted(p: string, id: string, q: string)
    requires |id| > 0 && forall k :: 0 <= k < |id| ==> IdChar(id[k])
    requires q == [] || !IdChar(q[0])
    requires forall k :: 0 <= k < |p| ==> !MarkerAt(p + "/d/" + id + q, k)
    ensures ExtractId(p + "/d/" + id + q) == id
  {
    var s := p + "/d/" + id + q;
    var at := |p|;
    assert s[at..at + 3] == "/d/";
    assert s[at + 3] == id[0];
    assert MarkerAt(s, at);
    var m := MarkerFrom(s, 0);
    assert m == Some(at);
    assert s[at + 3..at + 3 + |id|] == id;
    IdRunExact(s, at + 3, |id|);
  }

  const SpreadsheetsPath := "https://docs.google.com/spreadsheets"

  lemma MarkerChars(s: string, k: nat)
    ensures MarkerAt(s, k) ==> s[k] == '/' && s[k + 1] == 'd' && s[k + 2] == '/'
  {
    if k + 3 < |s| {
      assert s[k..k + 3][0] == s[k] && s[k..k + 3][1] == s[k + 1] && s[k..k + 3][2] == s[k + 2];
    }
  }

  lemma PathHasNoMarker(rest: string, k: nat)
    requires k < |SpreadsheetsPath|
    ensures !MarkerAt(SpreadsheetsPath + rest, k)
  {
    var p := SpreadsheetsPath;
    var url := p + rest;
    assert forall i :: 0 <= i < |p| - 2 ==> !(p[i] == '/' && p[i + 1] == 'd' && p[i + 2] == '/');
    assert p[|p| - 2] != '/' && p[|p| - 1] != '/';
    MarkerChars(url, k);
  }

  /** The id is taken out of a spreadsheet's address. */
  lemma SpreadsheetUrlAccepted(id: string)
    requires ValidSheetId(id)
    ensures NormalizeSheetId(Some(SpreadsheetsPath + "/d/" + id + "/edit")) == Ok(id)
  {
    var url := SpreadsheetsPath + "/d/" + id + "/edit";
    assert url[0] == 'h' && url[|url| - 1] == 't';
    TrimStartFixed(url);
    TrimEndFixed(url);
    forall k | 0 <= k < |SpreadsheetsPath| ensures !MarkerAt(url, k) {
      assert url == SpreadsheetsPath + ("/d/" + id + "/edit");
      PathHasNoMarker("/d/" + id + "/edit", k);
    }
    UrlIdExtracted(SpreadsheetsPath, id, "/edit");
  }

  // ------------------------------------------------------------ scanning the other workbook

  /** A value found for a setting key, and where. */
  datatype Found = Found(value: string, sheet: string, cell: string)

  /** A sheet of the other workbook: its name and its cells as text, row by row. */
  datatype SourceSheet = SourceSheet(name: string, cells: seq<seq<string>>)

  /** The setting keys looked for. */
  datatype TargetKey = AppId | AppSecret | AccessToken | UserId | GeminiApiKey

  /** The keys in the order they are tried for each cell. */
  const TargetKeys: seq<TargetKey> := [AppId, AppSecret, AccessToken, UserId, GeminiApiKey]

  /** The setting name a key is reported under. */
  function KeyName(key: TargetKey): string
  {
    match key
    case AppId => "app_id"
    case AppSecret => "app_secret"
    case AccessToken => "access_token"
    case UserId => "user_id"
    case GeminiApiKey => "gemini_api_key"
  }

  /** The labels a key may be written under in the other workbook. */
  function Aliases(key: TargetKey): seq<string>
  {
    match key
    case AppId => ["app_id", "APP_ID", "appId", "アプリID", "client_id", "CLIENT_ID"]
    case AppSecret => ["app_secret", "APP_SECRET", "appSecret", "アプリシークレット", "client_secret", "CLIENT_SECRET"]
    case AccessToken => ["access_token", "ACCESS_TOKEN", "accessToken", "アクセストークン", "token"]
    case UserId => ["user_id", "USER_ID", "userId", "ユーザーID", "threads_user_id"]
    case GeminiApiKey => ["gemini_api_key", "GEMINI_API_KEY", "geminiApiKey", "gemini_key", "GEMINI_KEY"]
  }

  /** The label matches one of the aliases, ignoring case. */
  predicate MatchesAlias(labelText: string, aliases: seq<string>)
  {
    exists a :: 0 <= a < |aliases| && ToLower(labelText) == ToLower(aliases[a])
  }

  /** The part of a sheet that is read: at most 100 rows of at most 10 columns. */
  function Window(cells: seq<seq<string>>): (w: seq<seq<string>>)
    ensures |w| <= 100 && |w| <= |cells|
    ensures forall i :: 0 <= i < |w| ==> |w[i]| <= 10 && w[i] == Take(cells[i], 10)
  {
    var rows := Take(cells, 100);
    seq(|rows|, i requires 0 <= i < |rows| => Take(rows[i], 10))
  }

  /** The value for a label at (i, j): the cell to its right if not empty, else the one below. */
  function ValueNear(grid: seq<seq<string>>, i: nat, j: nat): string
    requires i < |grid| && j < |grid[i]|
  {
    if j + 1 < |grid[i]| && grid[i][j + 1] != "" then Trim(grid[i][j + 1])
    else if i + 1 < |grid| && j < |grid[i + 1]| && grid[i + 1][j] != "" then Trim(grid[i + 1][j])
    else ""
  }

  /** What the cell at (i, j) yields for one key: a hit when it is labelled so and a value is near. */
  function CellHit(name: string, grid: seq<seq<string>>, i: nat, j: nat, key: TargetKey): seq<(TargetKey, Found)>
    requires i < |grid| && j < |grid[i]|
  {
    var labelText := Trim(grid[i][j]);
    var v := ValueNear(grid, i, j);
    if MatchesAlias(labelText, Aliases(key)) && v != "" then [(key, Found(v, name, labelText))] else []
  }

  /** The hits of the cell at (i, j) for the given keys, in key order. */
  function KeyHits(name: string, grid: seq<seq<string>>, i: nat, j: nat, keys: seq<TargetKey>): seq<(TargetKey, Found)>
    requires i < |grid| && j < |grid[i]|
  {
    if |keys| == 0 then []
    else KeyHits(name, grid, i, j, keys[..|keys| - 1]) + CellHit(name, grid, i, j, keys[|keys| - 1])
  }

  lemma KeyHitsStep(name: string, grid: seq<seq<string>>, i: nat, j: nat, keys: seq<TargetKey>, k: nat)
    requires i < |grid| && j < |grid[i]| && k < |keys|
    ensures KeyHits(name, grid, i, j, keys[..k + 1]) == KeyHits(name, grid, i, j, keys[..k]) + CellHit(name, grid, i, j, keys[k])
  {
    assert keys[..k + 1][..k] == keys[..k];
  }

  /** The hits of the first `n` cells of row i. */
  function RowHits(name: string, grid: seq<seq<string>>, i: nat, n: nat, keys: seq<TargetKey>): seq<(TargetKey, Found)>
    requires i < |grid| && n <= |grid[i]|
  {
    if n == 0 then []
    else RowHits(name, grid, i, n - 1, keys) + KeyHits(name, grid, i, n - 1, keys)
  }

  /** The hits of the first `m` rows. */
  function GridHits(name: string, grid: seq<seq<string>>, m: nat, keys: seq<TargetKey>): seq<(TargetKey, Found)>
    requires m <= |grid|
  {
    if m == 0 then []
    else GridHits(name, grid, m - 1, keys) + RowHits(name, grid, m - 1, |grid[m - 1]|, keys)
  }

  /** The hits of the first `n` sheets, each read through its window, in reading order. */
  function SheetsHits(sheets: seq<SourceSheet>, n: nat, keys: seq<TargetKey>): seq<(TargetKey, Found)>
    requires n <= |sheets|
  {
    if n == 0 then []
    else
      var w := Window(sheets[n - 1].cells);
      SheetsHits(sheets, n - 1, keys) + GridHits(sheets[n - 1].name, w, |w|, keys)
  }

  /** Recording hits in order: a key keeps the first value recorded for it. */
  function Record(m: map<TargetKey, Found>, hits: seq<(TargetKey, Found)>): map<TargetKey, Found>
  {
    if |hits| == 0 then m
    else
      var before := Record(m, hits[..|hits| - 1]);
      var (key, f) := hits[|hits| - 1];
      if key in before then before else before[key := f]
  }

  lemma {:induction false} RecordConcat(m: map<TargetKey, Found>, a: seq<(TargetKey, Found)>, b: seq<(TargetKey, Found)>)
    ensures Record(m, a + b) == Record(Record(m, a), b)
    decreases |b|
  {
    if |b| == 0 {
      assert a + b == a;
    } else {
      RecordConcat(m, a, b[..|b| - 1]);
      assert (a + b)[..|a + b| - 1] == a + b[..|b| - 1];
    }
  }

  /**
   * A key is found iff some hit has it, and what is found for it is the
   * first such hit: later sheets, rows and cells never override it.
   */
  lemma {:induction false} FirstHitWins(m: map<TargetKey, Found>, hits: seq<(TargetKey, Found)>, key: TargetKey)
    ensures key in Record(m, hits) <==> key in m || exists i :: 0 <= i < |hits| && hits[i].0 == key
    ensures key in m ==> Record(m, hits)[key] == m[key]
    ensures key !in m ==>
      forall i :: 0 <= i < |hits| && hits[i].0 == key && (forall j :: 0 <= j < i ==> hits[j].0 != key)
        ==> Record(m, hits)[key] == hits[i].1
    decreases |hits|
  {
    if |hits| > 0 {
      var p := hits[..|hits| - 1];
      FirstHitWins(m, p, key);
      if key !in m {
        forall i | 0 <= i < |hits| && hits[i].0 == key && (forall j :: 0 <= j < i ==> hits[j].0 != key)
          ensures Record(m, hits)[key] == hits[i].1
        {
          if i < |p| {
            assert p[i] == hits[i];
          } else {
            assert forall j :: 0 <= j < |p| ==> p[j].0 != key by {
              forall j | 0 <= j < |p| ensures p[j].0 != key {
                assert p[j] == hits[j];
              }
            }
          }
        }
      }
      if exists i :: 0 <= i < |hits| && hits[i].0 == key {
        var i :| 0 <= i < |hits| && hits[i].0 == key;
        if i < |p| {
          assert p[i] == hits[i];
        }
      }
    }
  }

  /** Whether the label is one of the aliases, ignoring case. */
  method FindAlias(labelText: string, aliases: seq<string>) returns (matched: bool)
    ensures matched <==> MatchesAlias(labelText, aliases)
  {
    var a := 0;
    while a < |aliases|
      invariant 0 <= a <= |aliases|
      invariant forall b :: 0 <= b < a ==> ToLower(labelText) != ToLower(aliases[b])
    {
      if ToLower(labelText) == ToLower(aliases[a]) {
        return true;
      }
      a := a + 1;
    }
    return false;
  }

  /** One key tried on one cell: skipped once found, else the aliases are compared with the label. */
  method ScanKey(found: map<TargetKey, Found>, name: string, grid: seq<seq<string>>, i: nat, j: nat, key: TargetKey)
    returns (out: map<TargetKey, Found>)
    requires i < |grid| && j < |grid[i]|
    ensures out == Record(found, CellHit(name, grid, i, j, key))
  {
    RecordOne(found, CellHit(name, grid, i, j, key));
    out := found;
    if key in found {
      return;
    }
    var labelText := Trim(grid[i][j]);
    var matched := FindAlias(labelText, Aliases(key));
    if matched {
      var value := "";
      if j + 1 < |grid[i]| && grid[i][j + 1] != "" {
        value := Trim(grid[i][j + 1]);
      } else if i + 1 < |grid| && j < |grid[i + 1]| && grid[i + 1][j] != "" {
        value := Trim(grid[i + 1][j]);
      }
      assert value == ValueNear(grid, i, j);
      if value != "" {
        out := found[key := Found(value, name, labelText)];
      }
    }
  }

  /** Recording no hit or one hit. */
  lemma RecordOne(m: map<TargetKey, Found>, hits: seq<(TargetKey, Found)>)
    requires |hits| <= 1
    ensures |hits| == 0 ==> Record(m, hits) == m
    ensures |hits| == 1 ==> Record(m, hits) == if hits[0].0 in m then m else m[hits[0].0 := hits[0].1]
  {
    if |hits| == 1 {
      assert hits[..0] == [];
    }
  }

  /** The given keys tried in turn on one cell. */
  method ScanKeys(found: map<TargetKey, Found>, name: string, grid: seq<seq<string>>, i: nat, j: nat, keys: seq<TargetKey>)
    returns (out: map<TargetKey, Found>)
    requires i < |grid| && j < |grid[i]|
    ensures out == Record(found, KeyHits(name, grid, i, j, keys))
  {
    out := found;
    var k := 0;
    while k < |keys|
      invariant 0 <= k <= |keys|
      invariant out == Record(found, KeyHits(name, grid, i, j, keys[..k]))
    {
      ghost var before := KeyHits(name, grid, i, j, keys[..k]);
      KeyHitsStep(name, grid, i, j, keys, k);
      out := ScanKey(out, name, grid, i, j, keys[k]);
      RecordConcat(found, before, CellHit(name, grid, i, j, keys[k]));
      k := k + 1;
    }
    assert keys[..|keys|] == keys;
  }

  lemma RowStep(found: map<TargetKey, Found>, name: string, grid: seq<seq<string>>, i: nat, j: nat, keys: seq<TargetKey>)
    requires i < |grid| && j < |grid[i]|
    ensures Record(Record(found, RowHits(name, grid, i, j, keys)), KeyHits(name, grid, i, j, keys))
         == Record(found, RowHits(name, grid, i, j + 1, keys))
  {
    RecordConcat(found, RowHits(name, grid, i, j, keys), KeyHits(name, grid, i, j, keys));
  }

  lemma GridStep(found: map<TargetKey, Found>, name: string, grid: seq<seq<string>>, i: nat, keys: seq<TargetKey>)
    requires i < |grid|
    ensures Record(Record(found, GridHits(name, grid, i, keys)), RowHits(name, grid, i, |grid[i]|, keys))
         == Record(found, GridHits(name, grid, i + 1, keys))
  {
    RecordConcat(found, GridHits(name, grid, i, keys), RowHits(name, grid, i, |grid[i]|, keys));
  }

  /** One row of a sheet's window. */
  method ScanRow(found: map<TargetKey, Found>, name: string, grid: seq<seq<string>>, i: nat, keys: seq<TargetKey>)
    returns (out: map<TargetKey, Found>)
    requires i < |grid|
    ensures out == Record(found, RowHits(name, grid, i, |grid[i]|, keys))
  {
    out := found;
    var j := 0;
    while j < |grid[i]|
      invariant 0 <= j <= |grid[i]|
      invariant out == Record(found, RowHits(name, grid, i, j, keys))
    {
      out := ScanKeys(out, name, grid, i, j, keys);
      RowStep(found, name, grid, i, j, keys);
      j := j + 1;
    }
  }

  /** A sheet's window, row by row. */
  method ScanGrid(found: map<TargetKey, Found>, name: string, grid: seq<seq<string>>, keys: seq<TargetKey>)
    returns (out: map<TargetKey, Found>)
    ensures out == Record(found, GridHits(name, grid, |grid|, keys))
  {
    out := found;
    var i := 0;
    while i < |grid|
      invariant 0 <= i <= |grid|
      invariant out == Record(found, GridHits(name, grid, i, keys))
    {
      out := ScanRow(out, name, grid, i, keys);
      GridStep(found, name, grid, i, keys);
      i := i + 1;
    }
  }

  lemma SheetsStep(found: map<TargetKey, Found>, sheets: seq<SourceSheet>, s: nat)
    requires s < |sheets|
    ensures var w := Window(sheets[s].cells);
      Record(Record(found, SheetsHits(sheets, s, TargetKeys)), GridHits(sheets[s].name, w, |w|, TargetKeys))
      == Record(found, SheetsHits(sheets, s + 1, TargetKeys))
  {
    var w := Window(sheets[s].cells);
    RecordConcat(found, SheetsHits(sheets, s, TargetKeys), GridHits(sheets[s].name, w, |w|, TargetKeys));
  }

  /** Every sheet of a workbook, in order, each through its window. */
  method ScanSheets(sheets: seq<SourceSheet>) returns (found: map<TargetKey, Found>)
    ensures found == Record(map[], SheetsHits(sheets, |sheets|, TargetKeys))
  {
    found := map[];
    var s := 0;
    while s < |sheets|
      invariant 0 <= s <= |sheets|
      invariant found == Record(map[], SheetsHits(sheets, s, TargetKeys))
    {
      var w := Window(sheets[s].cells);
      if |sheets[s].cells| != 0 {
        found := ScanGrid(found, sheets[s].name, w, TargetKeys);
      } else {
        assert GridHits(sheets[s].name, w, |w|, TargetKeys) == [];
      }
      SheetsStep(map[], sheets, s);
      s := s + 1;
    }
  }

  /**
   * `importFromExternalSheet`, given the workbook that opening the id
   * yields (`open`; None when it cannot be opened): every sheet is
   * scanned in order and each key keeps the first value found for it.
   */
  method ImportFromExternalSheet(sourceSheetId: Option<string>, open: string -> Option<seq<SourceSheet>>)
    returns (r: Result<map<TargetKey, Found>>)
    ensures NormalizeSheetId(sourceSheetId).Err? ==> r == Err(NormalizeSheetId(sourceSheetId).error)
    ensures NormalizeSheetId(sourceSheetId).Ok? ==>
      var id := NormalizeSheetId(sourceSheetId).value;
      r == if open(id).None? then Err(NoAccessMessage)
           else Ok(Record(map[], SheetsHits(open(id).value, |open(id).value|, TargetKeys)))
  {
    var id := NormalizeSheetId(sourceSheetId);
    if id.Err? {
      return Err(id.error);
    }
    var workbook := open(id.value);
    if workbook.None? {
      return Err(NoAccessMessage);
    }
    var found := ScanSheets(workbook.value);
    return Ok(found);
  }
}
