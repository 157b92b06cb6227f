/**
 * Provider settings checks and the live files of a provider
 * (services/provider/mod.rs `validate_provider_settings`,
 * services/provider/usage.rs `validate_usage_script`, and
 * services/provider/live.rs): what a provider must look like to be saved,
 * what switching to it writes into each application's live files, how the
 * live files are read back, and how a snapshot of them is restored.
 */
module ProviderLive {
  import opened Wrappers
  import opened Values
  import opened Text
  import opened Providers
  import opened LiveFiles
  import opened GrokConfig
  import opened McpCodex

  /** How a Gemini provider authenticates (`GeminiAuthType`). */
  datatype GeminiAuth = GoogleOfficial | Packycode | Generic

  /**
   * The Gemini helpers of gemini_config.rs and gemini_auth.rs, which are not
   * part of this model: `json_to_env`, `detect_gemini_auth_type`,
   * `validate_gemini_settings` and `validate_gemini_settings_strict` (each
   * with its own error), and the auth-type flag step
   * (`ensure_google_oauth_security_flag` for Google's own sign-in,
   * `write_packycode_settings` otherwise), given as the `settings.json` it
   * writes over the file as it is, or its error.
   */
  datatype GeminiHooks = GeminiHooks(
    toEnv: Json -> Result<map<string, string>>,
    authType: Provider -> GeminiAuth,
    valid: Json -> Result<()>,
    strictValid: Json -> Result<()>,
    securityFlag: (GeminiAuth, FileState<Json>) -> Result<Json>)

  // ---------------------------------------------------------------------------
  // Validation
  // ---------------------------------------------------------------------------

  /** The longest automatic usage-query interval, in minutes (24 hours). */
  const MaxAutoQueryInterval: nat := 1440

  /** `validate_usage_script`: only the automatic query interval is bounded; the refusal reports the interval given. */
  function ValidateUsageScript(s: UsageScript): (r: Result<()>)
    ensures r.Ok? <==> s.autoQueryInterval.None? || s.autoQueryInterval.value <= MaxAutoQueryInterval
    ensures r.Err? ==> r.error == IntervalTooLarge(s.autoQueryInterval.value)
  {
    if s.autoQueryInterval.Some? && s.autoQueryInterval.value > MaxAutoQueryInterval then
      Err(IntervalTooLarge(s.autoQueryInterval.value))
    else Ok(())
  }

  /** The refusal of an automatic query interval above 1440 minutes. */
  function IntervalTooLarge(interval: nat): Error
  {
    Localized("usage_script.interval_too_large",
              "自动查询间隔不能超过 1440 分钟（24小时），当前值: " + NatToString(interval),
              "Auto query interval cannot exceed 1440 minutes (24 hours), current: " + NatToString(interval))
  }

  /** `codex_config::validate_config_toml`: blank text or text the TOML parser accepts. */
  predicate ConfigTextValid(text: string, parse: TomlParser)
  {
    IsBlank(text) || parse(text).Some?
  }

  /** The Codex settings check of provider `id`: an object with an object `auth`, and a `config` that is valid text or null when present. */
  function ValidateCodexSettings(id: string, s: Json, parse: TomlParser): (r: Result<()>)
    ensures r.Ok? <==>
      s.JObj? && "auth" in s.fields && s.fields["auth"].JObj? &&
      ("config" in s.fields ==> s.fields["config"].JNull? || (s.fields["config"].JStr? && ConfigTextValid(s.fields["config"].s, parse)))
    ensures s.JObj? && "auth" !in s.fields ==>
      r == Err(Localized("provider.codex.auth.missing", "供应商 " + id + " 缺少 auth 配置", "Provider " + id + " is missing auth configuration"))
  {
    if !s.JObj? then Err(Localized("provider.codex.settings.not_object", "Codex 配置必须是 JSON 对象", "Codex configuration must be a JSON object"))
    else if "auth" !in s.fields then
      Err(Localized("provider.codex.auth.missing", "供应商 " + id + " 缺少 auth 配置", "Provider " + id + " is missing auth configuration"))
    else if !s.fields["auth"].JObj? then
      Err(Localized("provider.codex.auth.not_object", "供应商 " + id + " 的 auth 配置必须是 JSON 对象",
                    "Provider " + id + " auth configuration must be a JSON object"))
    else if "config" in s.fields && !(s.fields["config"].JStr? || s.fields["config"].JNull?) then
      Err(Localized("provider.codex.config.invalid_type", "Codex config 字段必须是字符串", "Codex config field must be a string"))
    else if "config" in s.fields && s.fields["config"].JStr? && !ConfigTextValid(s.fields["config"].s, parse) then
      Err(Config("invalid Codex config.toml text"))
    else Ok(())
  }

  /** The per-application part of `validate_provider_settings`. */
  function ValidateAppSettings(app: AppType, p: Provider, parse: TomlParser, gem: GeminiHooks): (r: Result<()>)
    ensures app == Claude ==> (r.Ok? <==> p.settingsConfig.JObj?)
    ensures app == Codex ==> r == ValidateCodexSettings(p.id, p.settingsConfig, parse)
    ensures app == Gemini ==> r == gem.valid(p.settingsConfig)
    ensures app == Grok ==> (r.Ok? <==> FromJson(p.settingsConfig).Ok?)
    ensures app == Qwen ==> r.Ok?
  {
    var s := p.settingsConfig;
    match app
    case Claude =>
      if s.JObj? then Ok(())
      else Err(Localized("provider.claude.settings.not_object", "Claude 配置必须是 JSON 对象", "Claude configuration must be a JSON object"))
    case Codex => ValidateCodexSettings(p.id, s, parse)
    case Gemini =>
      gem.valid(s)
    case Grok =>
      var g := FromJson(s);
      if g.Ok? then Ok(()) else Err(g.error)
    case Qwen => Ok(())
  }

  /**
   * `validate_provider_settings`: the per-application check first, then the
   * usage script of the metadata, when there is one.
   */
  function ValidateProviderSettings(app: AppType, p: Provider, parse: TomlParser, gem: GeminiHooks): (r: Result<()>)
    ensures r.Ok? <==> (ValidateAppSettings(app, p, parse, gem).Ok? &&
      (p.meta.Some? && p.meta.value.usageScript.Some? ==> ValidateUsageScript(p.meta.value.usageScript.value).Ok?))
    ensures ValidateAppSettings(app, p, parse, gem).Err? ==> r == ValidateAppSettings(app, p, parse, gem)
  {
    var a := ValidateAppSettings(app, p, parse, gem);
    if a.Err? then a
    else if p.meta.Some? && p.meta.value.usageScript.Some? then ValidateUsageScript(p.meta.value.usageScript.value)
    else Ok(())
  }

  // ---------------------------------------------------------------------------
  // Writing a provider into the live files
  // ---------------------------------------------------------------------------

  /** The existing `settings.json` a provider `config` object is merged into: unreadable or missing reads as `{}`. */
  function MergeBase(f: FileState<Json>): (r: Json)
    ensures f.Present? ==> r == f.value
    ensures !f.Present? ==> r == EmptyObject
  {
    if f.Present? then f.value else EmptyObject
  }

  /**
   * The Gemini `settings.json` to write, if any: an object `config` is merged
   * over the existing settings (each provider key overwriting, every other
   * existing key kept; existing settings that are not an object are written
   * back as they are); a null or absent `config` keeps the existing file; any
   * other `config` is an error.
   */
  function GeminiSettingsToWrite(settings: Json, existing: FileState<Json>): (r: Result<Option<Json>>)
  {
    var config := Get(settings, "config");
    if config.Some? && config.value.JObj? then
      var base := MergeBase(existing);
      Ok(Some(if base.JObj? then JObj(base.fields + config.value.fields) else base))
    else if config.Some? && !config.value.JNull? then
      Err(Localized("gemini.validation.invalid_config", "Gemini 配置格式错误: config 必须是对象或 null",
                    "Gemini config invalid: config must be an object or null"))
    else
      match existing
      case Present(v) => Ok(Some(v))
      case Absent => Ok(None)
      case Unreadable => Err(Io("cannot read ~/.gemini/settings.json"))
  }

  /**
   * The first part of `write_gemini_live`: the env pairs (none for Google's
   * own sign-in, whose settings skip the strict check) and the settings to
   * write. Every error here comes before the first write.
   */
  function GeminiEnvAndSettings(p: Provider, files: Files, gem: GeminiHooks): (r: Result<Files>)
    ensures r.Ok? ==> gem.toEnv(p.settingsConfig).Ok? && GeminiSettingsToWrite(p.settingsConfig, files.geminiSettings).Ok?
    ensures r.Ok? ==> gem.authType(p) == GoogleOfficial || gem.strictValid(p.settingsConfig).Ok?
    ensures r.Ok? ==> r.value.(geminiEnv := files.geminiEnv, geminiSettings := files.geminiSettings) == files
    ensures gem.toEnv(p.settingsConfig).Err? ==> r == Err(gem.toEnv(p.settingsConfig).error)
    ensures (gem.toEnv(p.settingsConfig).Ok? && GeminiSettingsToWrite(p.settingsConfig, files.geminiSettings).Ok? &&
      gem.authType(p) != GoogleOfficial && gem.strictValid(p.settingsConfig).Err?) ==>
      r == Err(gem.strictValid(p.settingsConfig).error)
  {
    var env := gem.toEnv(p.settingsConfig);
    if env.Err? then Err(env.error)
    else
      var toWrite := GeminiSettingsToWrite(p.settingsConfig, files.geminiSettings);
      if toWrite.Err? then Err(toWrite.error)
      else
        var auth := gem.authType(p);
        var strict := gem.strictValid(p.settingsConfig);
        if auth != GoogleOfficial && strict.Err? then Err(strict.error)
        else
          var pairs := if auth == GoogleOfficial then map[] else env.value;
          var settingsFile := if toWrite.value.Some? then Present(toWrite.value.value) else files.geminiSettings;
          Ok(files.(geminiEnv := Present(pairs), geminiSettings := settingsFile))
  }

  /**
   * `write_gemini_live`: the env and settings writes, then the auth-type flag
   * step over the settings just written. A failure of that last step comes
   * after the first two writes, which stay.
   */
  function GeminiLive(p: Provider, files: Files, gem: GeminiHooks): (r: Result<Files>)
    ensures r.Ok? ==> GeminiEnvAndSettings(p, files, gem).Ok?
    ensures GeminiEnvAndSettings(p, files, gem).Err? ==> r == GeminiEnvAndSettings(p, files, gem)
    ensures r.Ok? ==>
      var written := GeminiEnvAndSettings(p, files, gem).value;
      r.value.geminiEnv == written.geminiEnv &&
      r.value.(geminiSettings := written.geminiSettings) == written && r.value.geminiSettings.Present? &&
      Ok(r.value.geminiSettings.value) == gem.securityFlag(gem.authType(p), written.geminiSettings)
  {
    var w := GeminiEnvAndSettings(p, files, gem);
    if w.Err? then w
    else
      var flagged := gem.securityFlag(gem.authType(p), w.value.geminiSettings);
      if flagged.Err? then Err(flagged.error)
      else Ok(w.value.(geminiSettings := Present(flagged.value)))
  }

  /** The files after `write_live_snapshot(app, p)`, or the error it stops with. */
  function Snapshot(app: AppType, p: Provider, files: Files, gem: GeminiHooks): (r: Result<Files>)
    ensures app == Codex && r.Ok? ==>
      GetStr(p.settingsConfig, "config").Some? && Get(p.settingsConfig, "auth").Some?
  {
    var s := p.settingsConfig;
    match app
    case Claude => Ok(files.(claudeSettings := Present(s)))
    case Codex =>
      if !s.JObj? then Err(Config(CodexNotObject))
      else if "auth" !in s.fields then Err(Config(CodexNoAuth))
      else if GetStr(s, "config").None? then Err(Config(CodexNoConfig))
      else Ok(files.(codexAuth := Present(s.fields["auth"]), codexConfig := Present(GetStr(s, "config").value)))
    case Gemini => GeminiLive(p, files, gem)
    case Grok =>
      var g := FromJson(s);
      if g.Err? then Err(g.error) else Ok(files.(grokSettings := Present(ToJson(g.value))))
    case Qwen => Ok(files.(qwenSettings := Present(s)))
  }

  /** The messages `write_live_snapshot` refuses a malformed Codex provider with. */
  const CodexNotObject: string := "Codex 供应商配置必须是 JSON 对象"
  const CodexNoAuth: string := "Codex 供应商配置缺少 'auth' 字段"
  const CodexNoConfig: string := "Codex 供应商配置缺少 'config' 字段或不是字符串"

  /**
   * The files after `write_live_snapshot(app, p)` stopped with an error: a
   * Gemini write whose auth-type flag step failed has already written the env
   * and settings; every other error comes before the first write.
   */
  function AfterFailedSnapshot(app: AppType, p: Provider, files: Files, gem: GeminiHooks): (g: Files)
    ensures app != Gemini ==> g == files
    ensures app == Gemini && GeminiEnvAndSettings(p, files, gem).Err? ==> g == files
    ensures g.(geminiEnv := files.geminiEnv, geminiSettings := files.geminiSettings) == files
  {
    if app == Gemini && GeminiEnvAndSettings(p, files, gem).Ok? then GeminiEnvAndSettings(p, files, gem).value
    else files
  }

  /** The files a snapshot of `app` may write. */
  predicate OnlyAppFiles(f: Files, g: Files, app: AppType)
  {
    (app != Claude ==> g.claudeSettings == f.claudeSettings) &&
    g.claudeMcp == f.claudeMcp &&
    (app != Codex ==> g.codexAuth == f.codexAuth && g.codexConfig == f.codexConfig) &&
    (app != Gemini ==> g.geminiEnv == f.geminiEnv && g.geminiSettings == f.geminiSettings) &&
    (app != Grok ==> g.grokSettings == f.grokSettings) &&
    (app != Qwen ==> g.qwenSettings == f.qwenSettings)
  }

  /** A snapshot writes the files of its own application and no other. */
  lemma SnapshotFrame(app: AppType, p: Provider, files: Files, gem: GeminiHooks)
    requires Snapshot(app, p, files, gem).Ok?
    ensures OnlyAppFiles(files, Snapshot(app, p, files, gem).value, app)
  {
  }

  /** The merge loop of `write_gemini_live`: each provider key is inserted over the existing object. */
  method MergeConfig(existing: map<string, Json>, config: map<string, Json>) returns (merged: map<string, Json>)
    ensures merged == existing + config
  {
    merged := existing;
    var rest := config.Keys;
    while rest != {}
      invariant rest <= config.Keys
      invariant merged.Keys == existing.Keys + (config.Keys - rest)
      invariant forall k :: k in merged ==> merged[k] == (if k in config && k !in rest then config[k] else existing[k])
      decreases rest
    {
      var k :| k in rest;
      merged := merged[k := config[k]];
      rest := rest - {k};
    }
  }

  /** `write_gemini_live` on the file system. */
  method WriteGeminiLive(fs: FileSystem, p: Provider, gem: GeminiHooks) returns (r: Result<()>)
    modifies fs
    ensures r.Ok? <==> GeminiLive(p, old(fs.files), gem).Ok?
    ensures r.Ok? ==> fs.files == GeminiLive(p, old(fs.files), gem).value
    ensures r.Err? ==>
      r.error == GeminiLive(p, old(fs.files), gem).error && fs.files == AfterFailedSnapshot(Gemini, p, old(fs.files), gem)
  {
    var s := p.settingsConfig;
    var env := gem.toEnv(s);
    if env.Err? {
      return Err(env.error);
    }
    var toWrite: Option<Json> := None;
    var config := Get(s, "config");
    if config.Some? {
      if config.value.JObj? {
        var merged := MergeBase(fs.files.geminiSettings);
        if merged.JObj? {
          var fields := MergeConfig(merged.fields, config.value.fields);
          merged := JObj(fields);
        }
        toWrite := Some(merged);
      } else if !config.value.JNull? {
        return Err(Localized("gemini.validation.invalid_config", "Gemini 配置格式错误: config 必须是对象或 null",
                             "Gemini config invalid: config must be an object or null"));
      }
    }
    if toWrite.None? && fs.files.geminiSettings.Exists() {
      if fs.files.geminiSettings.Unreadable? {
        return Err(Io("cannot read ~/.gemini/settings.json"));
      }
      toWrite := Some(fs.files.geminiSettings.value);
    }
    assert GeminiSettingsToWrite(s, fs.files.geminiSettings) == Ok(toWrite);
    var auth := gem.authType(p);
    var pairs := env.value;
    if auth == GoogleOfficial {
      pairs := map[];
    } else {
      var strict := gem.strictValid(s);
      if strict.Err? {
        return Err(strict.error);
      }
    }
    fs.files := fs.files.(geminiEnv := Present(pairs));
    if toWrite.Some? {
      fs.files := fs.files.(geminiSettings := Present(toWrite.value));
    }
    var flagged := gem.securityFlag(auth, fs.files.geminiSettings);
    if flagged.Err? {
      return Err(flagged.error);
    }
    fs.files := fs.files.(geminiSettings := Present(flagged.value));
    r := Ok(());
  }

  /** `write_live_snapshot(app, p)` */
  method WriteLiveSnapshot(fs: FileSystem, app: AppType, p: Provider, gem: GeminiHooks) returns (r: Result<()>)
    modifies fs
    ensures r.Ok? <==> Snapshot(app, p, old(fs.files), gem).Ok?
    ensures r.Ok? ==> fs.files == Snapshot(app, p, old(fs.files), gem).value
    ensures r.Err? ==>
      r.error == Snapshot(app, p, old(fs.files), gem).error && fs.files == AfterFailedSnapshot(app, p, old(fs.files), gem)
  {
    var s := p.settingsConfig;
    match app
    case Claude =>
      fs.files := fs.files.(claudeSettings := Present(s));
      r := Ok(());
    case Codex =>
      if !s.JObj? {
        return Err(Config(CodexNotObject));
      }
      if "auth" !in s.fields {
        return Err(Config(CodexNoAuth));
      }
      var config := GetStr(s, "config");
      if config.None? {
        return Err(Config(CodexNoConfig));
      }
      fs.files := fs.files.(codexAuth := Present(s.fields["auth"]));
      fs.files := fs.files.(codexConfig := Present(config.value));
      r := Ok(());
    case Gemini =>
      r := WriteGeminiLive(fs, p, gem);
    case Grok =>
      var g := FromJson(s);
      if g.Err? {
        return Err(g.error);
      }
      WriteGrokSettings(fs, g.value);
      r := Ok(());
    case Qwen =>
      fs.files := fs.files.(qwenSettings := Present(s));
      r := Ok(());
  }

  // ---------------------------------------------------------------------------
  // Reading the live files back
  // ---------------------------------------------------------------------------

  /** Where Claude Code keeps its settings. */
  const ClaudeSettingsPath: string := "~/.claude/settings.json"

  /** A live JSON file that must exist: a missing one is the error `missing`, an unreadable one an I/O error. */
  function ReadRequired(f: FileState<Json>, path: string, missing: Error): (r: Result<Json>)
    ensures r.Ok? <==> f.Present?
    ensures r.Ok? ==> r.value == f.value
    ensures f.Absent? ==> r == Err(missing)
  {
    match f
    case Absent => Err(missing)
    case Unreadable => Err(Io("cannot read " + path))
    case Present(v) => Ok(v)
  }

  /** The first live file of `app` that reading its settings needs is missing (Codex `auth.json`, Gemini `.env`). */
  predicate MainFileAbsent(app: AppType, files: Files)
  {
    match app
    case Codex => files.codexAuth.Absent?
    case Claude => files.claudeSettings.Absent?
    case Gemini => files.geminiEnv.Absent?
    case Grok => files.grokSettings.Absent?
    case Qwen => files.qwenSettings.Absent?
  }

  /** The error `read_live_settings(app)` gives when the main live file of `app` is missing. */
  function LiveMissing(app: AppType): (e: Error)
    ensures e.Localized?
  {
    match app
    case Codex => Localized("codex.auth.missing", "Codex 配置文件不存在：缺少 auth.json", "Codex configuration missing: auth.json not found")
    case Claude => Localized("claude.live.missing", "Claude Code 配置文件不存在", "Claude settings file is missing")
    case Gemini => Localized("gemini.env.missing", "Gemini .env 文件不存在", "Gemini .env file not found")
    case Grok => Localized("grok.live.missing", "Grok 配置文件不存在", "Grok settings file is missing")
    case Qwen => Localized("qwen.live.missing", "Qwen 配置文件不存在", "Qwen settings file is missing")
  }

  /**
   * The live settings of `app`, with `missing` as the error for a missing main
   * file: Codex gives `{auth, config}` (the config text validated), Gemini
   * gives `{env, config}` with `config` = `{}` when `settings.json` is missing,
   * the others give their settings file. The `env` object is the env pairs as
   * strings.
   */
  function ReadLive(app: AppType, files: Files, parse: TomlParser, missing: Error): (r: Result<Json>)
    ensures MainFileAbsent(app, files) ==> r == Err(missing)
    ensures app == Codex && r.Ok? ==> r.value.JObj? && r.value.fields.Keys == {"auth", "config"} && r.value.fields["config"].JStr?
    ensures app == Gemini && r.Ok? ==> r.value.JObj? && r.value.fields.Keys == {"env", "config"}
    ensures app == Gemini && files.geminiEnv.Present? && files.geminiSettings.Absent? ==>
      r == Ok(JObj(map["env" := StrMapToJson(files.geminiEnv.value), "config" := EmptyObject]))
    ensures app == Claude ==> r == ReadRequired(files.claudeSettings, ClaudeSettingsPath, missing)
  {
    match app
    case Codex =>
      var auth := ReadRequired(files.codexAuth, "~/.codex/auth.json", missing);
      if auth.Err? then Err(auth.error)
      else
        var text := ReadConfigText(files.codexConfig, parse);
        if text.Err? then Err(text.error)
        else Ok(JObj(map["auth" := auth.value, "config" := JStr(text.value)]))
    case Claude => ReadRequired(files.claudeSettings, ClaudeSettingsPath, missing)
    case Gemini =>
      if files.geminiEnv.Absent? then Err(missing)
      else if files.geminiEnv.Unreadable? then Err(Io("cannot read ~/.gemini/.env"))
      else if files.geminiSettings.Unreadable? then Err(Io("cannot read ~/.gemini/settings.json"))
      else Ok(JObj(map["env" := StrMapToJson(files.geminiEnv.value), "config" := MergeBase(files.geminiSettings)]))
    case Grok => ReadRequired(files.grokSettings, "~/.grok/user-settings.json", missing)
    case Qwen => ReadRequired(files.qwenSettings, "~/.qwen/settings.json", missing)
  }

  /** `read_live_settings(app)`: the live settings, with the per-application missing-file errors. */
  function ReadLiveSettings(app: AppType, files: Files, parse: TomlParser): (r: Result<Json>)
    ensures MainFileAbsent(app, files) ==> r == Err(LiveMissing(app))
  {
    ReadLive(app, files, parse, LiveMissing(app))
  }

  /** Claude and Qwen settings written live read back unchanged. */
  lemma ClaudeQwenRoundTrip(app: AppType, p: Provider, files: Files, parse: TomlParser, gem: GeminiHooks)
    requires app == Claude || app == Qwen
    ensures Snapshot(app, p, files, gem).Ok?
    ensures ReadLiveSettings(app, Snapshot(app, p, files, gem).value, parse) == Ok(p.settingsConfig)
  {
  }

  /** Codex settings of exactly `{auth, config}` with valid config text read back unchanged. */
  lemma CodexRoundTrip(p: Provider, files: Files, parse: TomlParser, gem: GeminiHooks)
    requires p.settingsConfig.JObj? && p.settingsConfig.fields.Keys == {"auth", "config"}
    requires p.settingsConfig.fields["config"].JStr? && ConfigTextValid(p.settingsConfig.fields["config"].s, parse)
    ensures Snapshot(Codex, p, files, gem).Ok?
    ensures ReadLiveSettings(Codex, Snapshot(Codex, p, files, gem).value, parse) == Ok(p.settingsConfig)
  {
    var s := p.settingsConfig;
    var g := Snapshot(Codex, p, files, gem).value;
    assert g.codexConfig == Present(s.fields["config"].s);
    assert ReadConfigText(g.codexConfig, parse) == Ok(s.fields["config"].s);
    assert map["auth" := s.fields["auth"], "config" := s.fields["config"]] == s.fields;
  }

  /** Grok settings go through the typed record: what is read back parses to the same record. */
  lemma GrokRoundTrip(p: Provider, files: Files, parse: TomlParser, gem: GeminiHooks)
    requires FromJson(p.settingsConfig).Ok?
    ensures Snapshot(Grok, p, files, gem).Ok?
    ensures ReadLiveSettings(Grok, Snapshot(Grok, p, files, gem).value, parse).Ok?
    ensures FromJson(ReadLiveSettings(Grok, Snapshot(Grok, p, files, gem).value, parse).value) == FromJson(p.settingsConfig)
  {
    ReserializeKeepsKnownFields(p.settingsConfig);
  }

  /**
   * An object `config` is merged into an existing settings object: every
   * provider key takes the provider's value and every other existing key, such
   * as `mcpServers`, is kept in the settings written before the auth-type flag
   * step.
   */
  lemma GeminiMergeKeepsOthers(p: Provider, files: Files, gem: GeminiHooks, k: string)
    requires GeminiEnvAndSettings(p, files, gem).Ok?
    requires Get(p.settingsConfig, "config").Some? && Get(p.settingsConfig, "config").value.JObj?
    requires files.geminiSettings.Present? && files.geminiSettings.value.JObj?
    ensures var written := GeminiEnvAndSettings(p, files, gem).value.geminiSettings;
      var config := Get(p.settingsConfig, "config").value.fields;
      var existing := files.geminiSettings.value.fields;
      written.Present? && written.value.JObj? &&
      (k in config ==> k in written.value.fields && written.value.fields[k] == config[k]) &&
      (k !in config && k in existing ==> k in written.value.fields && written.value.fields[k] == existing[k]) &&
      (k !in config && k !in existing ==> k !in written.value.fields)
  {
  }

  /** A null or absent Gemini `config` leaves `settings.json` as it was until the auth-type flag step. */
  lemma GeminiNullConfigPreserves(p: Provider, files: Files, gem: GeminiHooks)
    requires GeminiEnvAndSettings(p, files, gem).Ok?
    requires Get(p.settingsConfig, "config").None? || Get(p.settingsConfig, "config").value.JNull?
    ensures GeminiEnvAndSettings(p, files, gem).value.geminiSettings == files.geminiSettings
    ensures GeminiLive(p, files, gem).Ok? ==>
      Ok(GeminiLive(p, files, gem).value.geminiSettings.value) == gem.securityFlag(gem.authType(p), files.geminiSettings)
  {
  }

  /** A `config` that is neither an object nor null is refused, before anything is written. */
  lemma GeminiBadConfigRefused(p: Provider, files: Files, gem: GeminiHooks)
    requires gem.toEnv(p.settingsConfig).Ok?
    requires Get(p.settingsConfig, "config").Some? && !Get(p.settingsConfig, "config").value.JObj? && !Get(p.settingsConfig, "config").value.JNull?
    ensures GeminiLive(p, files, gem).Err?
    ensures AfterFailedSnapshot(Gemini, p, files, gem) == files
  {
  }

  /** Google's own sign-in writes an empty env; any other provider writes its env pairs once strictly validated. */
  lemma GeminiEnvWritten(p: Provider, files: Files, gem: GeminiHooks)
    requires GeminiLive(p, files, gem).Ok?
    ensures gem.authType(p) == GoogleOfficial ==> GeminiLive(p, files, gem).value.geminiEnv == Present(map[])
    ensures gem.authType(p) != GoogleOfficial ==>
      gem.strictValid(p.settingsConfig).Ok? && GeminiLive(p, files, gem).value.geminiEnv == Present(gem.toEnv(p.settingsConfig).value)
  {
  }

  /**
   * When the auth-type flag step fails, the switch reports its error while the
   * env and settings written before it stay.
   */
  lemma GeminiFlagFailureKeepsWrites(p: Provider, files: Files, gem: GeminiHooks)
    requires GeminiEnvAndSettings(p, files, gem).Ok?
    requires gem.securityFlag(gem.authType(p), GeminiEnvAndSettings(p, files, gem).value.geminiSettings).Err?
    ensures Snapshot(Gemini, p, files, gem) ==
      Err(gem.securityFlag(gem.authType(p), GeminiEnvAndSettings(p, files, gem).value.geminiSettings).error)
    ensures AfterFailedSnapshot(Gemini, p, files, gem).geminiEnv.Present?
  {
  }

  /**
   * Validation lets a Codex provider through without a `config` string (null
   * or absent), yet such a provider cannot be written live.
   */
  lemma CodexValidButNotWritable(files: Files, parse: TomlParser, gem: GeminiHooks)
    ensures var p := WithId("p", "p", JObj(map["auth" := EmptyObject]), None);
      ValidateProviderSettings(Codex, p, parse, gem).Ok? && Snapshot(Codex, p, files, gem).Err?
  {
    var p := WithId("p", "p", JObj(map["auth" := EmptyObject]), None);
    assert "config" !in p.settingsConfig.fields;
  }

  // ---------------------------------------------------------------------------
  // Snapshots of the live files
  // ---------------------------------------------------------------------------

  /** `LiveSnapshot`: the live files of one application as they were, `None` for a missing file. */
  datatype LiveSnapshot =
    | ClaudeSnapshot(settings: Option<Json>)
    | CodexSnapshot(auth: Option<Json>, configText: Option<string>)
    | GeminiSnapshot(env: Option<map<string, string>>, geminiConfig: Option<Json>)
    | GrokSnapshot(grok: Option<Json>)

  /** A saved content is written back; a missing one deletes the file (a missing file stays missing). */
  function Put<T>(v: Option<T>): (f: FileState<T>)
    ensures v.Some? <==> f.Present?
    ensures v.Some? ==> f.value == v.value
  {
    if v.Some? then Present(v.value) else Absent
  }

  /** The files after `LiveSnapshot::restore`. */
  function Restored(files: Files, snap: LiveSnapshot): Files
  {
    match snap
    case ClaudeSnapshot(s) => files.(claudeSettings := Put(s))
    case CodexSnapshot(a, c) => files.(codexAuth := Put(a), codexConfig := Put(c))
    case GeminiSnapshot(e, c) => files.(geminiEnv := Put(e), geminiSettings := Put(c))
    case GrokSnapshot(s) => files.(grokSettings := Put(s))
  }

  /** `LiveSnapshot::restore`: one write or delete per file, in the source's order. */
  method Restore(fs: FileSystem, snap: LiveSnapshot)
    modifies fs
    ensures fs.files == Restored(old(fs.files), snap)
  {
    match snap
    case ClaudeSnapshot(s) =>
      fs.files := fs.files.(claudeSettings := Put(s));
    case CodexSnapshot(a, c) =>
      fs.files := fs.files.(codexAuth := Put(a));
      fs.files := fs.files.(codexConfig := Put(c));
    case GeminiSnapshot(e, c) =>
      fs.files := fs.files.(geminiEnv := Put(e));
      fs.files := fs.files.(geminiSettings := Put(c));
    case GrokSnapshot(s) =>
      fs.files := fs.files.(grokSettings := Put(s));
  }

  /** The content of a readable file, `None` for a missing one. */
  function Saved<T>(f: FileState<T>): Option<T>
  {
    if f.Present? then Some(f.value) else None
  }

  /** The snapshot of the files of `app` (Qwen has none). */
  function Capture(files: Files, app: AppType): Option<LiveSnapshot>
  {
    match app
    case Claude => Some(ClaudeSnapshot(Saved(files.claudeSettings)))
    case Codex => Some(CodexSnapshot(Saved(files.codexAuth), Saved(files.codexConfig)))
    case Gemini => Some(GeminiSnapshot(Saved(files.geminiEnv), Saved(files.geminiSettings)))
    case Grok => Some(GrokSnapshot(Saved(files.grokSettings)))
    case Qwen => None
  }

  /** The files of `app` agree in `f` and `g`. */
  predicate SameAppFiles(f: Files, g: Files, app: AppType)
  {
    match app
    case Claude => f.claudeSettings == g.claudeSettings
    case Codex => f.codexAuth == g.codexAuth && f.codexConfig == g.codexConfig
    case Gemini => f.geminiEnv == g.geminiEnv && f.geminiSettings == g.geminiSettings
    case Grok => f.grokSettings == g.grokSettings
    case Qwen => f.qwenSettings == g.qwenSettings
  }

  /** No file of `app` is unreadable. */
  predicate Readable(f: Files, app: AppType)
  {
    match app
    case Claude => !f.claudeSettings.Unreadable?
    case Codex => !f.codexAuth.Unreadable? && !f.codexConfig.Unreadable?
    case Gemini => !f.geminiEnv.Unreadable? && !f.geminiSettings.Unreadable?
    case Grok => !f.grokSettings.Unreadable?
    case Qwen => !f.qwenSettings.Unreadable?
  }

  /**
   * Restoring a snapshot of readable files puts them back exactly, whatever
   * was written in between, and touches the files of no other application.
   */
  lemma RestoreCaptured(f: Files, g: Files, app: AppType)
    requires app != Qwen && Readable(f, app)
    ensures SameAppFiles(Restored(g, Capture(f, app).value), f, app)
    ensures forall b :: b != app ==> SameAppFiles(Restored(g, Capture(f, app).value), g, b)
  {
  }
}
