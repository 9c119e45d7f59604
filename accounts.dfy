/**
 * Several Threads accounts in one spreadsheet: the アカウント table, the
 * active account kept under `active_account` in 設定, adding, removing and
 * switching accounts, and the token-expiry warnings.
 */
module Accounts {
  import opened Common
  import opened Store
  import Settings

  const AccountsSheetMissingMessage := "アカウントシートが見つかりません"
  const NothingToRemoveMessage := "削除するアカウントがありません"
  const AccountNotFoundMessage := "アカウントが見つかりません"

  // ------------------------------------------------------------ listing

  const HasId: AccountRow -> bool := (r: AccountRow) => r.accountId != ""

  /** `getAccounts`: the rows whose id cell is not blank, in sheet order. */
  function AccountsOf(present: bool, rows: seq<AccountRow>): (r: seq<AccountRow>)
    ensures forall i :: 0 <= i < |r| ==> r[i].accountId != ""
    ensures |r| <= |rows|
  {
    if present then Filter(rows, HasId) else []
  }

  /** Every row with an id is listed, and every listed account is a row of the sheet. */
  lemma AccountsListed(rows: seq<AccountRow>, a: AccountRow)
    ensures a in AccountsOf(true, rows) <==> a in rows && a.accountId != ""
  {
    if a in AccountsOf(true, rows) {
      FilterMember(rows, HasId, a);
    }
    if a in rows && a.accountId != "" {
      var i :| 0 <= i < |rows| && rows[i] == a;
      FilterContains(rows, HasId, i);
    }
  }

  // ------------------------------------------------------------ the active account

  /** An account as the scripts use it: a row of アカウント, or the legacy single account of 設定. */
  datatype Account =
    | Stored(row: AccountRow)
    | Legacy(accessToken: string, userId: string, username: string, profilePicUrl: string, tokenExpires: string)

  /** `accountId` of an account: the legacy one is 'default'. */
  function AccountIdOf(a: Account): string
  {
    if a.Stored? then a.row.accountId else "default"
  }

  /** `activeAccount ? activeAccount.accountId : 'default'`. */
  function ActiveAccountId(account: Option<Account>): string
  {
    if account.Some? then AccountIdOf(account.value) else "default"
  }

  /**
   * The first row with the given id: over the listed accounts, or over the
   * raw data rows, where a blank `id` matches a blank row.
   */
  function FindAccount(accounts: seq<AccountRow>, id: string): (r: Option<nat>)
    ensures r.Some? ==> r.value < |accounts| && accounts[r.value].accountId == id
    ensures r.Some? ==> forall j :: 0 <= j < r.value ==> accounts[j].accountId != id
    ensures r.None? ==> forall j :: 0 <= j < |accounts| ==> accounts[j].accountId != id
  {
    if |accounts| == 0 then None
    else if accounts[0].accountId == id then Some(0)
    else match FindAccount(accounts[1..], id)
      case None => None
      case Some(k) => Some(k + 1)
  }

  /** The account `getActiveAccount` returns and the id it persists as active, if any. */
  datatype Choice = Choice(account: Option<Account>, persist: Option<string>)

  /**
   * `getActiveAccount`: with no active id, the first account (persisted as
   * active), else the legacy account of 設定 when it has a token and a
   * user id, else none; with an active id, that account, else the first
   * account (persisted), else none.
   */
  function ActiveChoice(s: map<string, string>, accounts: seq<AccountRow>): Choice
  {
    var id := Settings.Setting(s, "active_account");
    if id == "" then
      if |accounts| > 0 then Choice(Some(Stored(accounts[0])), Some(accounts[0].accountId))
      else if Settings.Setting(s, "access_token") != "" && Settings.Setting(s, "user_id") != "" then
        Choice(Some(Legacy(Settings.Setting(s, "access_token"), Settings.Setting(s, "user_id"),
                           Settings.Setting(s, "username"), Settings.Setting(s, "profile_pic_url"),
                           Settings.Setting(s, "token_expires"))), None)
      else Choice(None, None)
    else match FindAccount(accounts, id)
      case Some(i) => Choice(Some(Stored(accounts[i])), None)
      case None =>
        if |accounts| > 0 then Choice(Some(Stored(accounts[0])), Some(accounts[0].accountId))
        else Choice(None, None)
  }

  /** Any account listed means an account is chosen, and it is a listed one. */
  lemma ActiveIsListed(s: map<string, string>, accounts: seq<AccountRow>)
    requires |accounts| > 0
    ensures ActiveChoice(s, accounts).account.Some?
    ensures ActiveChoice(s, accounts).account.value.Stored?
    ensures ActiveChoice(s, accounts).account.value.row in accounts
  {
  }

  /**
   * The fallback `getActiveAccount` persists is stable: read again after
   * the write, the same account comes back and nothing more is written.
   */
  lemma ActiveChoiceStable(rows: seq<SettingRow>, accounts: seq<AccountRow>)
    requires Settings.UniqueKeys(rows)
    requires forall i :: 0 <= i < |accounts| ==> accounts[i].accountId != ""
    requires ActiveChoice(Settings.SettingsOf(rows), accounts).persist.Some?
    ensures var c := ActiveChoice(Settings.SettingsOf(rows), accounts);
      ActiveChoice(Settings.SettingsOf(Settings.SavedRows(rows, ActiveParams(c.persist.value))), accounts)
        == Choice(c.account, None)
  {
    var c := ActiveChoice(Settings.SettingsOf(rows), accounts);
    var id := c.persist.value;
    assert id == accounts[0].accountId;
    Settings.SaveThenGet(rows, ActiveParams(id));
    var s' := Settings.SettingsOf(Settings.SavedRows(rows, ActiveParams(id)));
    assert s' == Settings.SettingsOf(rows)["active_account" := id];
    assert Settings.Setting(s', "active_account") == id;
    var f := FindAccount(accounts, id);
    assert f == Some(0);
  }

  /** The save request of `setActiveAccount`. */
  function ActiveParams(id: string): Settings.Params
  {
    [("active_account", Some(id))]
  }

  /** `setActiveAccount`: `active_account` is written through `saveSettings`. */
  method SetActiveAccount(settings: Sheet<SettingRow>, id: string)
    modifies settings
    ensures settings.present
    ensures settings.rows == Settings.SavedRows(Settings.RowsOrNone(old(settings.present), old(settings.rows)), ActiveParams(id))
  {
    assert Settings.Param(ActiveParams(id), "app_id").None?;
    assert Settings.Param(ActiveParams(id), "app_secret").None?;
    var outcome := Settings.SaveSettings(settings, ActiveParams(id));
  }

  /** `getActiveAccount`, persisting the fallback it chooses. */
  method GetActiveAccount(settings: Sheet<SettingRow>, accounts: Sheet<AccountRow>) returns (a: Option<Account>)
    modifies settings
    ensures var c := ActiveChoice(Settings.SettingsView(old(settings.present), old(settings.rows)),
                                  AccountsOf(accounts.present, accounts.rows));
      && a == c.account
      && (c.persist.None? ==> settings.present == old(settings.present) && settings.rows == old(settings.rows))
      && (c.persist.Some? ==>
            && settings.present
            && settings.rows == Settings.SavedRows(Settings.RowsOrNone(old(settings.present), old(settings.rows)),
                                                   ActiveParams(c.persist.value)))
  {
    var s := Settings.GetSettings(settings);
    var id := Settings.Setting(s, "active_account");
    var list := AccountsOf(accounts.present, accounts.rows);
    if id == "" {
      if |list| > 0 {
        SetActiveAccount(settings, list[0].accountId);
        return Some(Stored(list[0]));
      }
      if Settings.Setting(s, "access_token") != "" && Settings.Setting(s, "user_id") != "" {
        return Some(Legacy(Settings.Setting(s, "access_token"), Settings.Setting(s, "user_id"),
                           Settings.Setting(s, "username"), Settings.Setting(s, "profile_pic_url"),
                           Settings.Setting(s, "token_expires")));
      }
      return None;
    }
    var i := 0;
    while i < |list|
      invariant 0 <= i <= |list|
      invariant forall j :: 0 <= j < i ==> list[j].accountId != id
    {
      if list[i].accountId == id {
        assert FindAccount(list, id) == Some(i);
        return Some(Stored(list[i]));
      }
      i := i + 1;
    }
    if |list| > 0 {
      SetActiveAccount(settings, list[0].accountId);
      return Some(Stored(list[0]));
    }
    return None;
  }

  /** The credentials of `getActiveAccountAuth`. */
  datatype Auth = Auth(accessToken: string, userId: string)

  function AuthOf(a: Account): Auth
  {
    match a
    case Stored(row) => Auth(row.accessToken, row.userId)
    case Legacy(token, userId, _, _, _) => Auth(token, userId)
  }

  /**
   * `getActiveAccountAuth`: the active account's credentials; without one,
   * the token of 設定 when there is one.
   */
  method GetActiveAccountAuth(settings: Sheet<SettingRow>, accounts: Sheet<AccountRow>) returns (auth: Option<Auth>)
    modifies settings
    ensures var s := Settings.SettingsView(old(settings.present), old(settings.rows));
      var c := ActiveChoice(s, AccountsOf(accounts.present, accounts.rows));
      auth == if c.account.Some? then Some(AuthOf(c.account.value))
              else if Settings.Setting(s, "access_token") != "" then
                Some(Auth(Settings.Setting(s, "access_token"), Settings.Setting(s, "user_id")))
              else None
  {
    var a := GetActiveAccount(settings, accounts);
    if a.None? {
      var s := Settings.GetSettings(settings);
      if Settings.Setting(s, "access_token") != "" {
        return Some(Auth(Settings.Setting(s, "access_token"), Settings.Setting(s, "user_id")));
      }
      return None;
    }
    return Some(AuthOf(a.value));
  }

  // ------------------------------------------------------------ adding an account

  /** The `accountData` of `addAccount`; blank optional fields are "" (or None). */
  datatype AccountData = AccountData(
    accountId: string, accessToken: string, userId: string, username: string,
    profilePicUrl: string, tokenExpires: Option<int>)

  /** The 7-column row written for an account; the id defaults to 'acc-' + userId. */
  function AccountRowOf(data: AccountData, now: int): (r: AccountRow)
    ensures r.accountId != ""
  {
    AccountRow(OrDefault(data.accountId, "acc-" + data.userId), data.accessToken, data.userId,
               data.username, data.profilePicUrl, data.tokenExpires, now)
  }

  /** The first row holding an account (non-blank id) with this user id. */
  function FirstUserRow(rows: seq<AccountRow>, userId: string): (r: Option<nat>)
    ensures r.Some? ==> r.value < |rows| && rows[r.value].accountId != "" && rows[r.value].userId == userId
    ensures r.Some? ==> forall j :: 0 <= j < r.value ==> !(rows[j].accountId != "" && rows[j].userId == userId)
    ensures r.None? ==> forall j :: 0 <= j < |rows| ==> !(rows[j].accountId != "" && rows[j].userId == userId)
  {
    if |rows| == 0 then None
    else if rows[0].accountId != "" && rows[0].userId == userId then Some(0)
    else match FirstUserRow(rows[1..], userId)
      case None => None
      case Some(k) => Some(k + 1)
  }

  /** The first listed account with this user id (the search `addAccount` makes over `getAccounts`). */
  function FirstUserAccount(accounts: seq<AccountRow>, userId: string): (r: Option<nat>)
    ensures r.Some? ==> r.value < |accounts| && accounts[r.value].userId == userId
    ensures r.None? ==> forall j :: 0 <= j < |accounts| ==> accounts[j].userId != userId
  {
    if |accounts| == 0 then None
    else if accounts[0].userId == userId then Some(0)
    else match FirstUserAccount(accounts[1..], userId)
      case None => None
      case Some(k) => Some(k + 1)
  }

  /**
   * The table after `addAccount` AS WRITTEN: the position of the match in
   * the list of accounts is used as a data-row index, so blank-id rows
   * above the match shift the write onto the wrong row.
   */
  function AddedRowsAsWritten(rows: seq<AccountRow>, data: AccountData, now: int): seq<AccountRow>
  {
    var accounts := AccountsOf(true, rows);
    match FirstUserAccount(accounts, data.userId)
    case Some(i) => rows[i := AccountRowOf(data, now)]
    case None => rows + [AccountRowOf(data, now)]
  }

  /** The table after `addAccount` as intended: the matching account's own row is overwritten. */
  function AddedRows(rows: seq<AccountRow>, data: AccountData, now: int): seq<AccountRow>
  {
    match FirstUserRow(rows, data.userId)
    case Some(k) => rows[k := AccountRowOf(data, now)]
    case None => rows + [AccountRowOf(data, now)]
  }

  /**
   * With a blank row above the stored account, the write as written lands
   * on the blank row: the account list then holds the new and the stale
   * record of the same user instead of one updated record.
   */
  lemma AddAccountWrongRow()
    ensures var blank := AccountRow("", "", "", "", "", None, 0);
      var stored := AccountRow("acc-u", "old", "u", "", "", None, 0);
      var data := AccountData("", "new", "u", "", "", None);
      var after := AddedRowsAsWritten([blank, stored], data, 1);
      && AccountsOf(true, after) == [AccountRowOf(data, 1), stored]
      && AccountsOf(true, AddedRows([blank, stored], data, 1)) == [AccountRowOf(data, 1)]
  {
    var blank := AccountRow("", "", "", "", "", None, 0);
    var stored := AccountRow("acc-u", "old", "u", "", "", None, 0);
    var data := AccountData("", "new", "u", "", "", None);
    var rows := [blank, stored];
    assert rows[..1] == [blank];
    assert Filter([blank], HasId) == [];
    assert AccountsOf(true, rows) == [stored];
    assert FirstUserAccount([stored], "u") == Some(0);
    var after := rows[0 := AccountRowOf(data, 1)];
    assert after == [AccountRowOf(data, 1), stored];
    assert after[..1] == [AccountRowOf(data, 1)];
    assert Filter(after[..1], HasId) == [AccountRowOf(data, 1)];
    assert FirstUserRow(rows, "u") == Some(1);
    var fixed := rows[1 := AccountRowOf(data, 1)];
    assert fixed == [blank, AccountRowOf(data, 1)];
    assert fixed[..1] == [blank];
  }

  /**
   * As intended, adding an account either replaces the first account of
   * that user in place in the list, or appends it; no other account moves
   * or changes.
   */
  lemma AddedRowsUpdatesList(rows: seq<AccountRow>, data: AccountData, now: int)
    ensures FirstUserRow(rows, data.userId).Some? ==>
      var k := FirstUserRow(rows, data.userId).value;
      && AccountsOf(true, rows) == AccountsOf(true, rows[..k]) + [rows[k]] + AccountsOf(true, rows[k + 1..])
      && AccountsOf(true, AddedRows(rows, data, now))
         == AccountsOf(true, rows[..k]) + [AccountRowOf(data, now)] + AccountsOf(true, rows[k + 1..])
    ensures FirstUserRow(rows, data.userId).None? ==>
      AccountsOf(true, AddedRows(rows, data, now)) == AccountsOf(true, rows) + [AccountRowOf(data, now)]
  {
    var row := AccountRowOf(data, now);
    match FirstUserRow(rows, data.userId)
    case Some(k) =>
      var after := rows[k := row];
      assert rows == rows[..k] + [rows[k]] + rows[k + 1..];
      assert after == rows[..k] + [row] + rows[k + 1..];
      FilterConcat(rows[..k] + [rows[k]], rows[k + 1..], HasId);
      FilterConcat(rows[..k], [rows[k]], HasId);
      FilterConcat(rows[..k] + [row], rows[k + 1..], HasId);
      FilterConcat(rows[..k], [row], HasId);
      assert [rows[k]][..0] == [] && [row][..0] == [];
    case None =>
      FilterSnoc(rows, row, HasId);
  }

  /** The result of `addAccount`. */
  datatype Added = Added(accountId: string, isNew: bool)

  /**
   * `addAccount` (with the row of the matching account itself overwritten):
   * the account becomes the active one; `isNew` holds iff no stored account
   * had the same user id.
   */
  method AddAccount(accounts: Sheet<AccountRow>, settings: Sheet<SettingRow>, data: AccountData, now: int)
    returns (r: Result<Added>)
    modifies accounts, settings
    ensures !old(accounts.present) ==> r == Err(AccountsSheetMissingMessage)
    ensures !old(accounts.present) ==> accounts.rows == old(accounts.rows) && settings.rows == old(settings.rows)
    ensures old(accounts.present) ==>
      && accounts.rows == AddedRows(old(accounts.rows), data, now)
      && r == Ok(Added(AccountRowOf(data, now).accountId, FirstUserRow(old(accounts.rows), data.userId).None?))
      && settings.present
      && settings.rows == Settings.SavedRows(Settings.RowsOrNone(old(settings.present), old(settings.rows)),
                                             ActiveParams(AccountRowOf(data, now).accountId))
    ensures accounts.present == old(accounts.present) && accounts.headers == old(accounts.headers)
  {
    if !accounts.present {
      return Err(AccountsSheetMissingMessage);
    }
    var rows := accounts.rows;
    var existing: Option<nat> := None;
    var i := 0;
    while i < |rows|
      invariant 0 <= i <= |rows|
      invariant forall j :: 0 <= j < i ==> !(rows[j].accountId != "" && rows[j].userId == data.userId)
    {
      if rows[i].accountId != "" && rows[i].userId == data.userId {
        existing := Some(i);
        break;
      }
      i := i + 1;
    }
    assert existing == FirstUserRow(rows, data.userId);
    var row := AccountRowOf(data, now);
    if existing.Some? {
      accounts.SetRow(existing.value, row);
    } else {
      accounts.AppendRows([row]);
    }
    SetActiveAccount(settings, row.accountId);
    return Ok(Added(row.accountId, existing.None?));
  }

  // ------------------------------------------------------------ removing an account

  /** The id made active after a removal: the first remaining account, or '' when none remains. */
  function NextActive(rows: seq<AccountRow>): string
  {
    var remaining := AccountsOf(true, rows);
    if |remaining| > 0 then remaining[0].accountId else ""
  }

  /**
   * `removeAccount`: the first row with the id is deleted and the active
   * account reset; an empty table or an unknown id is an error and
   * changes nothing.
   */
  method RemoveAccount(accounts: Sheet<AccountRow>, settings: Sheet<SettingRow>, id: string)
    returns (r: Result<()>)
    modifies accounts, settings
    ensures !old(accounts.present) ==> r == Err(AccountsSheetMissingMessage)
    ensures old(accounts.present) && old(accounts.rows) == [] ==> r == Err(NothingToRemoveMessage)
    ensures old(accounts.present) && old(accounts.rows) != [] && FindAccount(old(accounts.rows), id).None? ==>
      r == Err(AccountNotFoundMessage)
    ensures old(accounts.present) && FindAccount(old(accounts.rows), id).Some? ==> r.Ok?
    ensures r.Err? ==> accounts.rows == old(accounts.rows) && settings.rows == old(settings.rows)
                       && settings.present == old(settings.present)
    ensures r.Ok? ==>
      && old(accounts.present) && FindAccount(old(accounts.rows), id).Some?
      && var k := FindAccount(old(accounts.rows), id).value;
      && accounts.rows == old(accounts.rows)[..k] + old(accounts.rows)[k + 1..]
      && settings.present
      && settings.rows == Settings.SavedRows(Settings.RowsOrNone(old(settings.present), old(settings.rows)),
                                             ActiveParams(NextActive(accounts.rows)))
    ensures accounts.present == old(accounts.present) && accounts.headers == old(accounts.headers)
  {
    if !accounts.present {
      return Err(AccountsSheetMissingMessage);
    }
    var rows := accounts.rows;
    if |rows| == 0 {
      return Err(NothingToRemoveMessage);
    }
    var i := 0;
    while i < |rows|
      invariant 0 <= i <= |rows|
      invariant forall j :: 0 <= j < i ==> rows[j].accountId != id
    {
      if rows[i].accountId == id {
        assert FindAccount(rows, id) == Some(i);
        accounts.DeleteRow(i);
        var remaining := AccountsOf(true, accounts.rows);
        if |remaining| > 0 {
          SetActiveAccount(settings, remaining[0].accountId);
        } else {
          SetActiveAccount(settings, "");
        }
        return Ok(());
      }
      i := i + 1;
    }
    return Err(AccountNotFoundMessage);
  }

  // ------------------------------------------------------------ token expiry

  /** One entry of `checkTokenExpiry`. */
  datatype Warning = Warning(accountId: string, username: string, daysLeft: nat, expired: bool)

  /** `Math.ceil((expiry - now) / one day)`. */
  function DaysLeft(expiresMs: int, nowMs: int): (d: int)
    ensures (d - 1) * DayMs < expiresMs - nowMs <= d * DayMs
  {
    CeilDiv(expiresMs - nowMs, DayMs)
  }

  /** The token of `a` expires within five (started) days of `nowMs`. */
  predicate DueSoon(a: AccountRow, nowMs: int)
  {
    a.tokenExpires.Some? && DaysLeft(a.tokenExpires.value, nowMs) <= 5
  }

  /** The warning pushed for an account whose token is due soon. */
  function WarningFor(a: AccountRow, nowMs: int): Warning
    requires DueSoon(a, nowMs)
  {
    var d := DaysLeft(a.tokenExpires.value, nowMs);
    Warning(a.accountId, a.username, Max(d, 0), d <= 0)
  }

  /**
   * The warnings of `checkTokenExpiry`, in the order of the accounts: at
   * most one per account, each with 0 to 5 days left and marked expired
   * exactly when 0 days are left.
   */
  function TokenWarnings(accounts: seq<AccountRow>, nowMs: int): (r: seq<Warning>)
    ensures |r| <= |accounts|
    ensures forall w :: w in r ==> w.daysLeft <= 5 && (w.expired <==> w.daysLeft == 0)
  {
    if |accounts| == 0 then []
    else
      var rest := TokenWarnings(accounts[..|accounts| - 1], nowMs);
      var a := accounts[|accounts| - 1];
      if DueSoon(a, nowMs) then rest + [WarningFor(a, nowMs)] else rest
  }

  /** `checkTokenExpiry`: the `forEach` over the listed accounts. */
  method CheckTokenExpiry(present: bool, rows: seq<AccountRow>, nowMs: int) returns (warnings: seq<Warning>)
    ensures warnings == TokenWarnings(AccountsOf(present, rows), nowMs)
  {
    var accounts := AccountsOf(present, rows);
    warnings := [];
    var i := 0;
    while i < |accounts|
      invariant 0 <= i <= |accounts|
      invariant warnings == TokenWarnings(accounts[..i], nowMs)
    {
      assert accounts[..i + 1][..i] == accounts[..i];
      if DueSoon(accounts[i], nowMs) {
        warnings := warnings + [WarningFor(accounts[i], nowMs)];
      }
      i := i + 1;
    }
    assert accounts[..i] == accounts;
  }

  /** A token is due soon iff it expires no more than five days from now; it is expired iff it expires no later than now. */
  lemma WarnedWithinFiveDays(expiresMs: int, nowMs: int)
    ensures DaysLeft(expiresMs, nowMs) <= 5 <==> expiresMs - nowMs <= 5 * DayMs
    ensures DaysLeft(expiresMs, nowMs) <= 0 <==> expiresMs <= nowMs
  {
    var d := DaysLeft(expiresMs, nowMs);
    if d >= 6 {
      assert (d - 1) * DayMs >= 5 * DayMs;
    }
    if d <= 5 {
      assert d * DayMs <= 5 * DayMs;
    }
    if d >= 1 {
      assert (d - 1) * DayMs >= 0;
    }
    if d <= 0 {
      assert d * DayMs <= 0;
    }
  }

  /** A warning is listed iff it is the warning of an account whose token is due soon. */
  lemma {:induction false} WarnedIff(accounts: seq<AccountRow>, nowMs: int, w: Warning)
    ensures w in TokenWarnings(accounts, nowMs) <==> exists a :: a in accounts && DueSoon(a, nowMs) && w == WarningFor(a, nowMs)
  {
    if |accounts| > 0 {
      var init := accounts[..|accounts| - 1];
      var last := accounts[|accounts| - 1];
      assert accounts == init + [last];
      WarnedIff(init, nowMs, w);
      if w in TokenWarnings(accounts, nowMs) && w !in TokenWarnings(init, nowMs) {
        assert last in accounts;
      }
      if exists a :: a in accounts && DueSoon(a, nowMs) && w == WarningFor(a, nowMs) {
        var a :| a in accounts && DueSoon(a, nowMs) && w == WarningFor(a, nowMs);
        if a != last {
          assert a in init;
        }
      }
    }
  }

  /** The warnings keep the order of the accounts: those of a list come before those of the accounts after it. */
  lemma {:induction false} WarningsInOrder(xs: seq<AccountRow>, ys: seq<AccountRow>, nowMs: int)
    ensures TokenWarnings(xs + ys, nowMs) == TokenWarnings(xs, nowMs) + TokenWarnings(ys, nowMs)
  {
    if |ys| > 0 {
      var init := ys[..|ys| - 1];
      var last := ys[|ys| - 1];
      assert (xs + ys)[..|xs + ys| - 1] == xs + init;
      assert (xs + ys)[|xs + ys| - 1] == last;
      assert ys[..|ys| - 1] == init;
      WarningsInOrder(xs, init, nowMs);
    } else {
      assert xs + ys == xs;
    }
  }
}
