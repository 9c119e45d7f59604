/**
 * Code.js: the entry points. `buildClientSettings_` hides the secrets from
 * the page, `doGet` decides which spreadsheet it serves and which page or
 * screen it shows, and `processApiRequest` checks the session token before
 * it dispatches an action and wraps what the action returns. The handlers
 * themselves, the HTML and the caches are outside the model: a handler's
 * outcome, the cached token and the bound spreadsheet id are inputs.
 */
module Router {
  import opened Common
  import Settings
  import Utils
  import Gemini

  // ------------------------------------------------------------ buildClientSettings_

  /** The settings the page never receives. */
  const Secrets: set<string> := {"app_secret", "access_token", "gemini_api_key"}

  /** A value of the client settings: a copied setting or one of the three flags. */
  datatype ClientValue = Text(s: string) | Flag(b: bool)

  /** The settings that are copied: every key that is not a secret. */
  function Copied(settings: map<string, string>): map<string, ClientValue>
  {
    map k | k in settings && k !in Secrets :: Text(settings[k])
  }

  const FlagNames: set<string> := {"hasAppSecret", "hasAccessToken", "hasGeminiKey"}

  /**
   * The client settings: no secret, every other setting as it is (unless it
   * bears a flag's name) and a flag telling whether each secret is set.
   */
  function ClientSettings(settings: map<string, string>): (c: map<string, ClientValue>)
    ensures forall k :: k in Secrets ==> k !in c
    ensures forall k :: k in c <==> (k in settings && k !in Secrets) || k in FlagNames
    ensures forall k :: k in settings && k !in Secrets && k !in FlagNames ==> c[k] == Text(settings[k])
    ensures c["hasAppSecret"] == Flag("app_secret" in settings && settings["app_secret"] != "")
    ensures c["hasAccessToken"] == Flag("access_token" in settings && settings["access_token"] != "")
    ensures c["hasGeminiKey"] == Flag("gemini_api_key" in settings && settings["gemini_api_key"] != "")
  {
    Copied(settings)
      ["hasAppSecret" := Flag(Settings.Setting(settings, "app_secret") != "")]
      ["hasAccessToken" := Flag(Settings.Setting(settings, "access_token") != "")]
      ["hasGeminiKey" := Flag(Settings.Setting(settings, "gemini_api_key") != "")]
  }

  /** `buildClientSettings_`: the `for-in` loop copies every key but the secrets, then the flags are set. */
  method BuildClientSettings(settings: map<string, string>) returns (safe: map<string, ClientValue>)
    ensures safe == ClientSettings(settings)
  {
    safe := map[];
    var todo := settings.Keys;
    while todo != {}
      invariant todo <= settings.Keys
      invariant safe == map k | k in settings && k !in todo && k !in Secrets :: Text(settings[k])
      decreases |todo|
    {
      var k :| k in todo;
      if k !in Secrets {
        safe := safe[k := Text(settings[k])];
      }
      todo := todo - {k};
    }
    safe := safe["hasAppSecret" := Flag(Settings.Setting(settings, "app_secret") != "")];
    safe := safe["hasAccessToken" := Flag(Settings.Setting(settings, "access_token") != "")];
    safe := safe["hasGeminiKey" := Flag(Settings.Setting(settings, "gemini_api_key") != "")];
  }

  // ------------------------------------------------------------ doGet: the spreadsheet

  const StateSeparator := ":::"

  /** `state.split(':::')[0]`. */
  function StatePrefix(state: string): string
  {
    Gemini.SplitOn(state, StateSeparator)[0]
  }

  /** The spreadsheet `doGet` serves: the bound one, else the `sheetId` parameter, else the sheet named in `state`. */
  function SheetIdOf(bound: string, param: string, state: string): (r: string)
    ensures bound != "" ==> r == bound
    ensures bound == "" && param != "" ==> r == param
    ensures bound == "" && param == "" ==> r == (if state != "" then StatePrefix(state) else "")
  {
    if bound != "" then bound
    else if param != "" then param
    else if state != "" && StatePrefix(state) != "" then StatePrefix(state)
    else ""
  }

  /** The `state` the auth page writes (`sheetId + ':::' + uuid`) names its spreadsheet again. */
  lemma StateRoundTrip(id: string, nonce: string)
    requires ':' !in id
    ensures StatePrefix(id + StateSeparator + nonce) == id
  {
    var state := id + StateSeparator + nonce;
    assert state[|id|..][..3] == StateSeparator;
    forall i | 0 <= i < |id|
      ensures !StartsWith(state[i..], StateSeparator)
    {
      assert state[i..][0] == id[i];
    }
    Gemini.IndexOfFromAt(state, StateSeparator, 0, |id|);
    assert state[..|id|] == id;
  }

  // ------------------------------------------------------------ doGet: the page

  datatype Screen = Welcome | Dashboard | SetupAuth | Setup

  /**
   * The first screen: 'welcome' without a spreadsheet or when reading it
   * threw (`settings` is None, or `loaded` is false when the dashboard data
   * could not be read), else by the settings.
   */
  function InitialScreen(sheetId: string, settings: Option<map<string, string>>, loaded: bool): (s: Screen)
    ensures sheetId == "" || settings.None? ==> s == Welcome
    ensures settings.Some? ==> var m := settings.value;
      && (s == Dashboard <==> sheetId != "" && loaded && Settings.Setting(m, "access_token") != "")
      && (s == SetupAuth <==> sheetId != "" && Settings.Setting(m, "access_token") == "" && Settings.Setting(m, "app_id") != "")
      && (s == Setup <==> sheetId != "" && Settings.Setting(m, "access_token") == "" && Settings.Setting(m, "app_id") == "")
  {
    if sheetId == "" || settings.None? then Welcome
    else if Settings.Setting(settings.value, "access_token") != "" then (if loaded then Dashboard else Welcome)
    else if Settings.Setting(settings.value, "app_id") != "" then SetupAuth
    else Setup
  }

  /** The request parameters `doGet` reads ('' when absent). */
  datatype GetParams = GetParams(page: string, code: string, state: string, sheetId: string)

  datatype Page = Callback(target: string) | AuthStart(oauthState: string) | App(sheetId: string, screen: Screen)

  /**
   * The page `doGet` returns. `settings` is what `getSettings` read from the
   * served spreadsheet (None when opening it threw), `nonce` the uuid of the
   * OAuth state.
   */
  function PageOf(bound: string, p: GetParams, settings: Option<map<string, string>>, nonce: string, loaded: bool): Page
  {
    var sheetId := SheetIdOf(bound, p.sheetId, p.state);
    var stateSheetId := if p.state != "" then StatePrefix(p.state) else "";
    if p.code != "" && (stateSheetId != "" || sheetId != "") && p.page == "" then
      Callback(if stateSheetId != "" then stateSheetId else sheetId)
    else if p.page == "auth" && sheetId != "" && settings.Some?
            && Settings.Setting(settings.value, "app_id") != "" && Settings.Setting(settings.value, "app_secret") != "" then
      AuthStart(sheetId + StateSeparator + nonce)
    else App(sheetId, InitialScreen(sheetId, settings, loaded))
  }

  /**
   * The OAuth round trip: the provider's redirect back with a code and the
   * state the auth page wrote lands on the callback for the same
   * spreadsheet, even on a deployment not bound to it.
   */
  lemma AuthReturnsToSheet(id: string, nonce: string, code: string, settings: Option<map<string, string>>,
                           back: Option<map<string, string>>, loaded: bool)
    requires id != "" && ':' !in id && code != ""
    requires settings.Some? && Settings.Setting(settings.value, "app_id") != ""
    requires Settings.Setting(settings.value, "app_secret") != ""
    ensures PageOf("", GetParams("auth", "", "", id), settings, nonce, loaded) == AuthStart(id + StateSeparator + nonce)
    ensures PageOf("", GetParams("", code, id + StateSeparator + nonce, ""), back, nonce, loaded) == Callback(id)
  {
    StateRoundTrip(id, nonce);
  }

  /** `app_url` is rewritten when the app id is set and the stored URL differs from the deployment's. */
  function SavesAppUrl(sheetId: string, deploymentUrl: string, settings: Option<map<string, string>>): bool
  {
    && sheetId != "" && deploymentUrl != "" && settings.Some?
    && Settings.Setting(settings.value, "app_id") != ""
    && var appUrl := Settings.Setting(settings.value, "app_url");
       appUrl == "" || Utils.NormalizeUrl(appUrl) != Utils.NormalizeUrl(deploymentUrl)
  }

  /** Once the normalised deployment URL is stored, the next visit does not store it again. */
  lemma AppUrlSavedOnce(sheetId: string, deploymentUrl: string, m: map<string, string>)
    requires Utils.NormalizeUrl(deploymentUrl) != ""
    ensures !SavesAppUrl(sheetId, deploymentUrl, Some(m["app_url" := Utils.NormalizeUrl(deploymentUrl)]))
  {
    Utils.NormalizeUrlIdempotent(deploymentUrl);
  }

  // ------------------------------------------------------------ processApiRequest

  const InvalidRequestMessage := "不正なリクエストです。ページを再読み込みしてください。"
  const NoSheetMessage := "シートIDが指定されていません"
  const OpenFailedPrefix := "スプレッドシートを開けません: "
  const GenericFailureMessage := "処理中にエラーが発生しました。しばらく後にお試しください。"
  const InvalidInputMessage := "入力形式が正しくありません"
  const UnknownActionPrefix := "Unknown action: "

  /** The actions the router dispatches. */
  const Actions: set<string> := {
    "getSettings", "saveSettings", "validateSheetId",
    "getAuthUrl", "exchangeToken", "getUserProfile",
    "getAccounts", "getActiveAccount", "setActiveAccount", "removeAccount", "importAccountFromSheet",
    "importFromExternalSheet", "checkTokenExpiry", "switchAccount",
    "fetchAndStorePostAnalytics", "getAnalyticsData", "generateTimeAnalysis", "getTimeAnalysisData",
    "fetchUserInsights",
    "addCompetitor", "getCompetitors", "updateCompetitor", "deleteCompetitor", "saveWatchPost", "getWatchPosts",
    "deleteWatchPost", "searchCompetitorByGrounding", "analyzeCompetitorStyle", "analyzeVsSelf", "analyzeBuzzPatterns",
    "getFollowerHistory", "setupFollowerTrigger", "recordDailyFollowers",
    "generateWeeklyReport", "getWeeklyReport", "getWeeklyReportList", "setupWeeklyTrigger",
    "searchKeyword", "getSearchHistory", "getSavedSearchResults", "analyzeKeywordTrend", "clearSearchHistory",
    "clearSavedSearchResults",
    "generatePostWithAI", "generatePostWithAnalysis", "generateAnalysisReport", "generateImprovementSuggestions",
    "refinePostWithAI",
    "saveDraft", "getDrafts", "toggleDraftStatus", "deleteDraft"}

  /** `{success: true, data}` or `{success: false, error}`. */
  datatype Response = Success(data: Json) | Failure(error: string)

  /** The fields of the request the router reads itself ('' when absent). */
  datatype Request = Request(action: string, sessionToken: string)

  /** `saveSettings` answered `{success: false, ...}`. */
  predicate RejectedSave(action: string, result: Json)
  {
    action == "saveSettings" && Truthy(result) && Get(result, "success") == JBool(false)
  }

  /** `result.error || '入力形式が正しくありません'` for a string error. */
  function RejectionText(error: Json): string
  {
    if error.JStr? && error.s != "" then error.s else InvalidInputMessage
  }

  /**
   * `processApiRequest`: `validToken` is the cached session token, `bound`
   * the bound spreadsheet id ('' when there is none), `openError` the
   * message `openById` threw, and `handler` the outcome of the dispatched
   * action (`Err` when it threw).
   */
  function ProcessApiRequest(req: Request, validToken: Option<string>, bound: string, openError: Option<string>,
                             handler: Result<Json>): (r: Response)
    ensures req.sessionToken == "" || validToken != Some(req.sessionToken) ==> r == Failure(InvalidRequestMessage)
    ensures r.Success? <==>
      && req.sessionToken != "" && validToken == Some(req.sessionToken) && bound != "" && openError.None?
      && req.action in Actions && handler.Ok? && !RejectedSave(req.action, handler.value)
    ensures r.Success? ==> r.data == handler.value
    ensures validToken == Some(req.sessionToken) != Some("") && bound != "" && openError.None? ==>
      && (req.action !in Actions ==> r == Failure(UnknownActionPrefix + req.action))
      && (req.action in Actions && handler.Err? ==> r == Failure(GenericFailureMessage))
  {
    if req.sessionToken == "" || validToken != Some(req.sessionToken) then Failure(InvalidRequestMessage)
    else if bound == "" then Failure(NoSheetMessage)
    else if openError.Some? then Failure(OpenFailedPrefix + openError.value)
    else if req.action !in Actions then Failure(UnknownActionPrefix + req.action)
    else match handler
      case Err(_) => Failure(GenericFailureMessage)
      case Ok(result) =>
        if RejectedSave(req.action, result) then Failure(RejectionText(Get(result, "error")))
        else Success(result)
  }

  /** Without the session token nothing is dispatched: the answer depends on nothing else. */
  lemma TokenGate(req: Request, validToken: Option<string>, b1: string, b2: string, o1: Option<string>,
                  o2: Option<string>, h1: Result<Json>, h2: Result<Json>)
    requires req.sessionToken == "" || validToken != Some(req.sessionToken)
    ensures ProcessApiRequest(req, validToken, b1, o1, h1) == ProcessApiRequest(req, validToken, b2, o2, h2)
                                                         == Failure(InvalidRequestMessage)
  {
  }
}
