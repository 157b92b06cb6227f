/**
 * Usage queries (services/provider/usage.rs): a provider's saved usage script
 * is run with its credentials and the value it returns is shaped into a
 * `UsageResult`. Running the script is outside the model and is a parameter
 * (`run`), as are the `UsageData` shape check (`accepts`), the display text
 * of a non-localized error (`display`) and the configured language.
 */
module Usage {
  import opened Wrappers
  import opened Values
  import opened Providers
  import opened Store

  /** What one run of a usage script is given. */
  datatype ScriptCall = ScriptCall(
    code: string,
    timeout: nat,
    apiKey: string,
    baseUrl: string,
    accessToken: Option<string>,
    userId: Option<string>)

  /** `UsageResult`; the usage entries are the JSON values the script returned. */
  datatype UsageResult = UsageResult(success: bool, data: Option<seq<Json>>, error: Option<string>)

  /** The timeout, in seconds, of a saved script that sets none. */
  const DefaultTimeout: nat := 10

  const DataFormatError: Error :=
    Localized("usage_script.data_format_error", "数据格式错误", "Data format error")

  /** The language used for messages when the settings name none. */
  const DefaultLanguage: string := "zh"

  /** A localized error in the configured language; any other error as its display text. */
  function ErrorMessage(e: Error, language: Option<string>, display: Error -> string): (msg: string)
    ensures e.Localized? && language == Some("en") ==> msg == e.en
    ensures e.Localized? && language != Some("en") ==> msg == e.zh
    ensures !e.Localized? ==> msg == display(e)
  {
    if e.Localized? then (if language.UnwrapOr(DefaultLanguage) == "en" then e.en else e.zh)
    else display(e)
  }

  /** Every entry has the `UsageData` shape. */
  predicate AllAccepted(items: seq<Json>, accepts: Json -> bool)
  {
    forall i :: 0 <= i < |items| ==> accepts(items[i])
  }

  /**
   * `execute_and_format_usage_result` after the script has run: an array
   * must decode entry by entry, any other value as one entry; a failed run is
   * reported inside a successful result, with the message in the configured
   * language.
   */
  function FormatUsageResult(run: Result<Json>, language: Option<string>, accepts: Json -> bool, display: Error -> string)
    : (r: Result<UsageResult>)
    ensures r.Err? <==> run.Ok? && (if run.value.JArr? then !AllAccepted(run.value.items, accepts) else !accepts(run.value))
    ensures r.Err? ==> r.error == DataFormatError
    ensures r.Ok? ==> (r.value.success <==> run.Ok?) && (r.value.data.Some? <==> run.Ok?) && (r.value.error.Some? <==> run.Err?)
    ensures r.Ok? && run.Ok? ==> AllAccepted(r.value.data.value, accepts)
    ensures r.Ok? && run.Ok? && run.value.JArr? ==> r.value.data.value == run.value.items
    ensures r.Ok? && run.Ok? && !run.value.JArr? ==> r.value.data.value == [run.value]
    ensures run.Err? ==> r == Ok(UsageResult(false, None, Some(ErrorMessage(run.error, language, display))))
  {
    match run
    case Ok(data) =>
      if data.JArr? then
        if AllAccepted(data.items, accepts) then Ok(UsageResult(true, Some(data.items), None))
        else Err(DataFormatError)
      else if accepts(data) then Ok(UsageResult(true, Some([data]), None))
      else Err(DataFormatError)
    case Err(e) =>
      Ok(UsageResult(false, None, Some(ErrorMessage(e, language, display))))
  }

  /** A script returning one entry, or an array of just that entry, gives the same result. */
  lemma SingleAsArray(d: Json, language: Option<string>, accepts: Json -> bool, display: Error -> string)
    requires !d.JArr?
    ensures FormatUsageResult(Ok(JArr([d])), language, accepts, display) == FormatUsageResult(Ok(d), language, accepts, display)
  {
    if accepts(d) {
      assert AllAccepted([d], accepts);
    } else {
      assert !accepts([d][0]);
    }
  }

  /** A failed run is never an error of the command: the failure is in the result. */
  lemma FailedRunReported(e: Error, language: Option<string>, accepts: Json -> bool, display: Error -> string)
    ensures var r := FormatUsageResult(Err(e), language, accepts, display);
      r.Ok? && !r.value.success && r.value.data.None? && r.value.error.Some?
    ensures e.Localized? ==>
      (FormatUsageResult(Err(e), None, accepts, display).value.error == Some(e.zh)) &&
      (FormatUsageResult(Err(e), Some("en"), accepts, display).value.error == Some(e.en))
  {
  }

  /** The saved script of a provider, if its meta holds one. */
  function ScriptOf(p: Provider): (s: Option<UsageScript>)
    ensures s.Some? <==> p.meta.Some? && p.meta.value.usageScript.Some?
    ensures s.Some? ==> s.value == p.meta.value.usageScript.value
  {
    if p.meta.Some? then p.meta.value.usageScript else None
  }

  /** The credentials of a saved script, with the defaults for those it does not set. */
  function CallOf(s: UsageScript): (c: ScriptCall)
    ensures c.code == s.code && c.accessToken == s.accessToken && c.userId == s.userId
    ensures s.timeout.None? ==> c.timeout == DefaultTimeout
    ensures s.timeout.Some? ==> c.timeout == s.timeout.value
    ensures s.apiKey.None? ==> c.apiKey == []
    ensures s.apiKey.Some? ==> c.apiKey == s.apiKey.value
    ensures s.baseUrl.None? ==> c.baseUrl == []
    ensures s.baseUrl.Some? ==> c.baseUrl == s.baseUrl.value
  {
    ScriptCall(s.code, s.timeout.UnwrapOr(DefaultTimeout), s.apiKey.UnwrapOr(""), s.baseUrl.UnwrapOr(""),
               s.accessToken, s.userId)
  }

  function NotFound(id: string): Error
  {
    Localized("provider.not_found", "供应商不存在: " + id, "Provider not found: " + id)
  }

  const ScriptMissing: Error := Localized("provider.usage.script.missing", "未配置用量查询脚本", "Usage script is not configured")
  const ScriptDisabled: Error := Localized("provider.usage.disabled", "用量查询未启用", "Usage query is disabled")

  /**
   * The checks of `query_usage` before the script runs, in their order: the
   * provider must exist, have a script, and the script must be enabled.
   */
  function QueryPlan(p: Option<Provider>, id: string): (r: Result<ScriptCall>)
    ensures p.None? ==> r == Err(NotFound(id))
    ensures p.Some? && ScriptOf(p.value).None? ==> r == Err(ScriptMissing)
    ensures p.Some? && ScriptOf(p.value).Some? && !ScriptOf(p.value).value.enabled ==> r == Err(ScriptDisabled)
    ensures r.Ok? <==> p.Some? && ScriptOf(p.value).Some? && ScriptOf(p.value).value.enabled
    ensures r.Ok? ==> r.value == CallOf(ScriptOf(p.value).value)
  {
    if p.None? then Err(NotFound(id))
    else match ScriptOf(p.value)
      case None => Err(ScriptMissing)
      case Some(s) => if !s.enabled then Err(ScriptDisabled) else Ok(CallOf(s))
  }

  /**
   * `query_usage`: the provider is looked up among the providers of `app`;
   * when the checks pass, its saved script runs (`run`) and the value is
   * formatted; otherwise the first failed check is the error and no script
   * runs.
   */
  method QueryUsage(db: Database, app: string, id: string, run: ScriptCall -> Result<Json>,
                    language: Option<string>, accepts: Json -> bool, display: Error -> string)
    returns (r: Result<UsageResult>)
    ensures QueryPlan(db.ProviderOf(app, id), id).Err? ==> r == Err(QueryPlan(db.ProviderOf(app, id), id).error)
    ensures QueryPlan(db.ProviderOf(app, id), id).Ok? ==>
      r == FormatUsageResult(run(QueryPlan(db.ProviderOf(app, id), id).value), language, accepts, display)
  {
    var providers := db.GetAllProviders(app);
    var found := FindById(providers, id);
    if found.Some? {
      ghost var k :| 0 <= k < |providers| && providers[k] == found.value;
      assert db.ProviderOf(app, id) == found;
    } else {
      assert (app, id) !in db.providers;
    }
    var plan := QueryPlan(found, id);
    if plan.Err? {
      return Err(plan.error);
    }
    r := FormatUsageResult(run(plan.value), language, accepts, display);
  }

  /** `test_usage_script`: the given script and credentials run as they are, missing ones as empty. */
  function TestUsageScript(code: string, timeout: nat, apiKey: Option<string>, baseUrl: Option<string>,
                           accessToken: Option<string>, userId: Option<string>, run: ScriptCall -> Result<Json>,
                           language: Option<string>, accepts: Json -> bool, display: Error -> string)
    : Result<UsageResult>
  {
    FormatUsageResult(run(ScriptCall(code, timeout, apiKey.UnwrapOr(""), baseUrl.UnwrapOr(""), accessToken, userId)),
                      language, accepts, display)
  }

  /**
   * Testing a saved, enabled script with its saved settings (the timeout
   * filled in as the query would) gives exactly what the query gives.
   */
  lemma TestMatchesQuery(p: Provider, id: string, run: ScriptCall -> Result<Json>,
                         language: Option<string>, accepts: Json -> bool, display: Error -> string)
    requires ScriptOf(p).Some? && ScriptOf(p).value.enabled
    ensures var s := ScriptOf(p).value;
      QueryPlan(Some(p), id).Ok? &&
      TestUsageScript(s.code, s.timeout.UnwrapOr(DefaultTimeout), s.apiKey, s.baseUrl, s.accessToken, s.userId,
                      run, language, accepts, display)
      == FormatUsageResult(run(QueryPlan(Some(p), id).value), language, accepts, display)
  {
  }

  /** A provider whose script is switched off never runs it, whatever else it holds. */
  lemma DisabledNeverRuns(p: Provider, id: string)
    requires ScriptOf(p).Some? && !ScriptOf(p).value.enabled
    ensures QueryPlan(Some(p), id) == Err(ScriptDisabled)
  {
  }
}
