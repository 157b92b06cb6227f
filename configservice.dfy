/**
 * The configuration service (services/config.rs): a timestamped copy of
 * `config.json` kept among the ten newest `.json` backups, and the sync of
 * each application's current provider from the legacy `MultiAppConfig` into
 * the live files, with the written files read back into the stored provider.
 *
 * The legacy configuration is its provider managers (by application name)
 * and its MCP section; the clock is a parameter.
 */
module ConfigService {
  import opened Wrappers
  import opened Values
  import opened Providers
  import opened LiveFiles
  import opened Sorting
  import Dir = Files
  import opened ProviderLive
  import opened McpImport
  import opened McpCodex
  import opened GrokConfig
  import opened McpService
  import McpGrok

  // ---------------------------------------------------------------------------
  // create_backup and cleanup_old_backups
  // ---------------------------------------------------------------------------

  /** How many `.json` backups `create_backup` keeps. */
  const MaxBackups: nat := 10

  /** `backup_<timestamp>`, the id of a configuration backup. */
  function ConfigBackupId(stamp: string): string
  {
    "backup_" + stamp
  }

  function Min(a: nat, b: nat): nat
  {
    if a <= b then a else b
  }

  /**
   * `cleanup_old_backups`: with `retain` = 0 nothing is deleted; otherwise all
   * but the `retain` newest `.json` files are deleted, oldest first. Returns
   * the deleted names.
   */
  method CleanupOldBackups<C>(dir: Dir.Folder<C>, retain: nat) returns (removed: seq<string>)
    modifies dir
    ensures retain == 0 ==> removed == [] && dir.files == old(dir.files)
    ensures Distinct(removed)
    ensures retain > 0 ==>
      |removed| == if |Dir.WithExtension(old(dir.files), "json")| <= retain then 0 else |Dir.WithExtension(old(dir.files), "json")| - retain
    ensures dir.files == old(dir.files) - Dir.Elements(removed)
    ensures forall n :: n in removed ==> n in Dir.WithExtension(old(dir.files), "json")
    ensures forall d, k :: d in removed && k in Dir.WithExtension(old(dir.files), "json") && k !in removed ==>
      Dir.MtimeLe(old(dir.files)[d].mtime, old(dir.files)[k].mtime)
    ensures retain > 0 ==> |Dir.WithExtension(dir.files, "json")| == Min(|Dir.WithExtension(old(dir.files), "json")|, retain)
  {
    if retain == 0 {
      return [];
    }
    ghost var before := Dir.WithExtension(dir.files, "json");
    removed := dir.RemoveOldest("json", retain);
    Dir.DistinctCard(removed);
    assert Dir.WithExtension(dir.files, "json") == before - Dir.Elements(removed);
  }

  /**
   * `create_backup`: a missing `config.json` gives the empty id and writes
   * nothing; an unreadable one is an error; otherwise its bytes are copied to
   * `<id>.json`, written at `now`, and the backups are cleaned up.
   */
  method CreateBackup<C>(config: FileState<C>, dir: Dir.Folder<C>, stamp: string, now: int)
    returns (r: Result<string>, removed: seq<string>)
    modifies dir
    ensures config.Absent? ==> r == Ok("") && dir.files == old(dir.files)
    ensures config.Unreadable? ==> r.Err? && r.error.Io? && dir.files == old(dir.files)
    ensures config.Present? ==> r == Ok(ConfigBackupId(stamp))
    ensures config.Present? ==>
      var written := old(dir.files)[ConfigBackupId(stamp) + ".json" := Dir.FileEntry(Some(now), config.value)];
      dir.files == written - Dir.Elements(removed) &&
      |Dir.WithExtension(dir.files, "json")| == Min(|Dir.WithExtension(written, "json")|, MaxBackups)
    ensures config.Present? && NewerThanAll(old(dir.files), ConfigBackupId(stamp) + ".json", now) ==>
      ConfigBackupId(stamp) + ".json" in dir.files &&
      dir.files[ConfigBackupId(stamp) + ".json"] == Dir.FileEntry(Some(now), config.value)
  {
    if config.Absent? {
      return Ok(""), [];
    }
    if config.Unreadable? {
      return Err(Io("cannot read config.json")), [];
    }
    removed := WriteBackup(config.value, dir, ConfigBackupId(stamp) + ".json", now);
    r := Ok(ConfigBackupId(stamp));
  }

  /** Writes the backup file `name` at `now`, then keeps the `MaxBackups` newest `.json` files. */
  method WriteBackup<C>(content: C, dir: Dir.Folder<C>, name: string, now: int) returns (removed: seq<string>)
    modifies dir
    ensures
      var written := old(dir.files)[name := Dir.FileEntry(Some(now), content)];
      dir.files == written - Dir.Elements(removed) &&
      |Dir.WithExtension(dir.files, "json")| == Min(|Dir.WithExtension(written, "json")|, MaxBackups)
    ensures NewerThanAll(old(dir.files), name, now) ==>
      name in dir.files && dir.files[name] == Dir.FileEntry(Some(now), content)
  {
    dir.Write(name, content, now);
    ghost var cands := Dir.WithExtension(dir.files, "json");
    removed := CleanupOldBackups(dir, MaxBackups);
    if NewerThanAll(old(dir.files), name, now) {
      WrittenBackupKept(old(dir.files), name, content, now, cands, removed, MaxBackups);
    }
  }

  /**
   * The backup just written, at a time later than every other backup, is not
   * among those the cleanup deletes.
   */
  lemma WrittenBackupKept<C>(before: map<string, Dir.FileEntry<C>>, name: string, content: C, now: int,
                             cands: set<string>, removed: seq<string>, retain: nat)
    requires NewerThanAll(before, name, now)
    requires cands == Dir.WithExtension(before[name := Dir.FileEntry(Some(now), content)], "json")
    requires retain > 0 && Distinct(removed) && forall n :: n in removed ==> n in cands
    requires |removed| == if |cands| <= retain then 0 else |cands| - retain
    requires forall d, k :: d in removed && k in cands && k !in removed ==>
      Dir.MtimeLe(before[name := Dir.FileEntry(Some(now), content)][d].mtime,
                  before[name := Dir.FileEntry(Some(now), content)][k].mtime)
    ensures name !in removed
  {
    if name in cands {
      NewestSurvives(before[name := Dir.FileEntry(Some(now), content)], cands, removed, retain, name);
    }
  }

  /** Every `.json` file other than `name` was last written before `now`. */
  predicate NewerThanAll<C>(files: map<string, Dir.FileEntry<C>>, name: string, now: int)
  {
    forall k :: k in files && k != name && Dir.Extension(k) == Some("json") ==> files[k].mtime.Some? && files[k].mtime.value < now
  }

  /**
   * A cleanup that keeps at least one file never deletes a file strictly
   * newer than every other: the backup just written survives when the clock
   * has moved on since the other backups were written.
   */
  lemma NewestSurvives<C>(before: map<string, Dir.FileEntry<C>>, cands: set<string>, removed: seq<string>, retain: nat,
                          newest: string)
    requires retain > 0 && Distinct(removed) && cands <= before.Keys
    requires forall n :: n in removed ==> n in cands
    requires |removed| == if |cands| <= retain then 0 else |cands| - retain
    requires forall d, k :: d in removed && k in cands && k !in removed ==> Dir.MtimeLe(before[d].mtime, before[k].mtime)
    requires newest in cands && before[newest].mtime.Some?
    requires forall k :: k in cands && k != newest ==> before[k].mtime.Some? && before[k].mtime.value < before[newest].mtime.value
    ensures newest !in removed
  {
    Dir.DistinctCard(removed);
    var gone := Dir.Elements(removed);
    assert gone <= cands;
    assert |cands - gone| == |cands| - |gone| > 0;
    var k :| k in cands - gone;
    assert k !in removed;
  }

  // ---------------------------------------------------------------------------
  // sync_current_providers_to_live
  // ---------------------------------------------------------------------------

  /** The parameters the projections need: the TOML codec, the MCP spec extractor and the Gemini hooks. */
  datatype SyncHooks = SyncHooks(codec: Codec, extract: Json -> Result<Json>, gem: GeminiHooks)

  /** The legacy `MultiAppConfig` the sync updates in place: provider managers by application name, and the MCP section. */
  class LegacyConfig {
    var apps: map<string, ProviderManager>
    var mcp: McpConfig

    constructor (apps: map<string, ProviderManager>, mcp: McpConfig)
      ensures this.apps == apps && this.mcp == mcp
    {
      this.apps := apps;
      this.mcp := mcp;
    }
  }

  /** The current provider of `app`: its manager must exist, name a current id, and hold that provider. */
  function CurrentOf(apps: map<string, ProviderManager>, app: AppType): (r: Option<(string, Provider)>)
    ensures r.Some? <==>
      AppName(app) in apps && apps[AppName(app)].current != "" &&
      apps[AppName(app)].current in apps[AppName(app)].providers
    ensures r.Some? ==>
      r.value.0 == apps[AppName(app)].current && r.value.1 == apps[AppName(app)].providers[r.value.0]
  {
    if AppName(app) !in apps then None
    else
      var m := apps[AppName(app)];
      if m.current == "" || m.current !in m.providers then None
      else Some((m.current, m.providers[m.current]))
  }

  /** The managers with the stored settings of provider `id` of `app` replaced, when that provider is there. */
  function StoreBack(apps: map<string, ProviderManager>, app: AppType, id: string, s: Json)
    : map<string, ProviderManager>
  {
    if AppName(app) in apps && id in apps[AppName(app)].providers then
      var m := apps[AppName(app)];
      apps[AppName(app) := m.(providers := m.providers[id := m.providers[id].(settingsConfig := s)])]
    else apps
  }

  /** What one application's sync leaves: the files it wrote, and the read-back settings or its error. */
  datatype Outcome = Outcome(files: Files, settings: Result<Json>)

  /** The Claude sync: the settings file is written and read back. */
  function ClaudeSync(s: Json, files: Files): Outcome
  {
    var written := files.(claudeSettings := Present(s));
    Outcome(written, ReadRequired(written.claudeSettings, ClaudeSettingsPath, Io("cannot read " + ClaudeSettingsPath)))
  }

  /** The checks of `sync_codex_live` before it writes: an object with an object `auth`, which is returned. */
  function CodexShape(id: string, s: Json): (r: Result<Json>)
    ensures r.Ok? <==> s.JObj? && "auth" in s.fields && s.fields["auth"].JObj?
    ensures r.Ok? ==> r.value == s.fields["auth"]
    ensures !s.JObj? ==> r == Err(Config("供应商 " + id + " 的 Codex 配置必须是对象"))
    ensures s.JObj? && "auth" !in s.fields ==> r == Err(Config("供应商 " + id + " 的 Codex 配置缺少 auth 字段"))
    ensures s.JObj? && "auth" in s.fields && !s.fields["auth"].JObj? ==>
      r == Err(Config("供应商 " + id + " 的 Codex auth 配置必须是 JSON 对象"))
  {
    if !s.JObj? then Err(Config("供应商 " + id + " 的 Codex 配置必须是对象"))
    else if "auth" !in s.fields then Err(Config("供应商 " + id + " 的 Codex 配置缺少 auth 字段"))
    else if !s.fields["auth"].JObj? then Err(Config("供应商 " + id + " 的 Codex auth 配置必须是 JSON 对象"))
    else Ok(s.fields["auth"])
  }

  /**
   * `write_codex_live_atomic` as the sync uses it: the config text, empty
   * when there is none, must be blank or parse; then `auth.json` and
   * `config.toml` are written together.
   */
  function CodexLiveWrite(auth: Json, text: Option<string>, files: Files, parse: TomlParser): (r: Result<Files>)
  {
    var t := text.UnwrapOr("");
    if !ConfigTextValid(t, parse) then Err(Config("invalid ~/.codex/config.toml"))
    else Ok(files.(codexAuth := Present(auth), codexConfig := Present(t)))
  }

  /**
   * The Codex sync: the shape checks, the live write, the sync of the
   * enabled MCP servers into `config.toml`, and its text read back into the
   * settings' `config`.
   */
  function CodexSync(id: string, s: Json, files: Files, mcp: McpConfig, h: SyncHooks): Outcome
  {
    var auth := CodexShape(id, s);
    if auth.Err? then Outcome(files, Err(auth.error))
    else
      var w := CodexLiveWrite(auth.value, GetStr(s, "config"), files, h.codec.parse);
      if w.Err? then Outcome(files, Err(w.error))
      else
        var text := ReadConfigText(w.value.codexConfig, h.codec.parse);
        if text.Err? then Outcome(w.value, Err(text.error))
        else
          var synced := w.value.(codexConfig := Present(h.codec.render(
            SyncedDoc(BaseDoc(text.value, h.codec.parse), ServersTable(EnabledSpecs(mcp.codex, h.extract), h.codec.toFloat)))));
          var after := ReadConfigText(synced.codexConfig, h.codec.parse);
          if after.Err? then Outcome(synced, Err(after.error))
          else Outcome(synced, Ok(JObj(s.fields["config" := JStr(after.value)])))
  }

  /**
   * The Gemini sync: `write_gemini_live`, then `.env` and `settings.json` read
   * back as one object. A failing auth-type flag step leaves the env and
   * settings it wrote before.
   */
  function GeminiSync(p: Provider, files: Files, h: SyncHooks): Outcome
  {
    var w := GeminiLive(p, files, h.gem);
    if w.Err? then Outcome(AfterFailedSnapshot(Gemini, p, files, h.gem), Err(w.error))
    else Outcome(w.value, ReadLiveSettings(Gemini, w.value, h.codec.parse))
  }

  /**
   * The Grok sync: the settings go through the typed record into the file,
   * the enabled MCP servers are synced into it, and the file is read back.
   * When several enabled servers cannot be written, the error is the one of
   * whichever the `HashMap` visits first, so it is left as some such error.
   */
  ghost function GrokSync(s: Json, files: Files, mcp: McpConfig, h: SyncHooks): Outcome
  {
    var g := FromJson(s);
    if g.Err? then Outcome(files, Err(g.error))
    else
      var written := files.(grokSettings := Present(ToJson(g.value)));
      var current := ReadGrokSettings(written.grokSettings);
      var enabled := McpGrok.GrokEnabled(mcp, h.extract);
      if current.Err? then Outcome(written, Err(current.error))
      else if !AllEntriesValid(enabled) then
        var id :| id in enabled && LiveEntry(id, enabled[id]).Err?;
        Outcome(written, Err(LiveEntry(id, enabled[id]).error))
      else
        var synced := written.(grokSettings := Present(ToJson(current.value.(mcpServers := Some(LiveEntries(enabled))))));
        var back := ReadGrokSettings(synced.grokSettings);
        if back.Err? then Outcome(synced, Err(back.error))
        else Outcome(synced, Ok(ToJson(back.value)))
  }

  /** The sync of provider `p` (id `id`) of one of the four synced applications. */
  ghost function AppSync(app: AppType, id: string, p: Provider, files: Files, mcp: McpConfig, h: SyncHooks): Outcome
    requires app != Qwen
  {
    match app
    case Claude => ClaudeSync(p.settingsConfig, files)
    case Codex => CodexSync(id, p.settingsConfig, files, mcp, h)
    case Gemini => GeminiSync(p, files, h)
    case Grok => GrokSync(p.settingsConfig, files, mcp, h)
  }

  /** The managers, the live files and the result after a sync. */
  datatype Synced = Synced(apps: map<string, ProviderManager>, files: Files, result: Result<()>)

  /**
   * `sync_current_provider_for_app`: nothing happens without a current
   * provider, or for Qwen; otherwise the application's sync runs and, when
   * it succeeds, what it read back is stored in the current provider.
   */
  ghost function SyncForApp(apps: map<string, ProviderManager>, mcp: McpConfig, files: Files, h: SyncHooks, app: AppType): Synced
  {
    match CurrentOf(apps, app)
    case None => Synced(apps, files, Ok(()))
    case Some(cur) =>
      if app == Qwen then Synced(apps, files, Ok(()))
      else
        var o := AppSync(app, cur.0, cur.1, files, mcp, h);
        match o.settings
        case Err(e) => Synced(apps, o.files, Err(e))
        case Ok(s) => Synced(StoreBack(apps, app, cur.0, s), o.files, Ok(()))
  }

  /** The next application's sync, unless an earlier one failed. */
  ghost function Then(s: Synced, mcp: McpConfig, h: SyncHooks, app: AppType): Synced
  {
    if s.result.Err? then s else SyncForApp(s.apps, mcp, s.files, h, app)
  }

  /** `sync_current_providers_to_live`: Claude, Codex, Gemini, Grok and Qwen in turn, stopping at the first error. */
  ghost function SyncAll(apps: map<string, ProviderManager>, mcp: McpConfig, files: Files, h: SyncHooks): Synced
  {
    Then(Then(Then(Then(SyncForApp(apps, mcp, files, h, Claude), mcp, h, Codex), mcp, h, Gemini), mcp, h, Grok), mcp, h, Qwen)
  }

  /** A method's final state and result agree with a sync's: the same managers and files, and success exactly when it succeeds. */
  predicate Agrees(apps: map<string, ProviderManager>, files: Files, r: Result<()>, s: Synced)
  {
    apps == s.apps && files == s.files && (r.Ok? <==> s.result.Ok?)
  }

  // ---------------------------------------------------------------------------
  // The sync, step by step
  // ---------------------------------------------------------------------------

  /** The `if let Some(target)` store of the read-back settings into the legacy configuration. */
  method StoreSettings(config: LegacyConfig, app: AppType, id: string, s: Json)
    modifies config
    ensures config.apps == StoreBack(old(config.apps), app, id, s) && config.mcp == old(config.mcp)
  {
    if AppName(app) in config.apps && id in config.apps[AppName(app)].providers {
      var m := config.apps[AppName(app)];
      config.apps := config.apps[AppName(app) := m.(providers := m.providers[id := m.providers[id].(settingsConfig := s)])];
    }
  }

  /** `write_codex_live_atomic`: nothing is written when the text is invalid. */
  method WriteCodexLiveAtomic(fs: FileSystem, auth: Json, text: Option<string>, parse: TomlParser) returns (r: Result<()>)
    modifies fs
    ensures r.Ok? <==> CodexLiveWrite(auth, text, old(fs.files), parse).Ok?
    ensures r.Ok? ==> fs.files == CodexLiveWrite(auth, text, old(fs.files), parse).value
    ensures r.Err? ==> fs.files == old(fs.files)
  {
    var t := text.UnwrapOr("");
    if !ConfigTextValid(t, parse) {
      return Err(Config("invalid ~/.codex/config.toml"));
    }
    fs.files := fs.files.(codexAuth := Present(auth), codexConfig := Present(t));
    r := Ok(());
  }

  /** `sync_claude_live` */
  method SyncClaudeLive(fs: FileSystem, config: LegacyConfig, h: SyncHooks, id: string, p: Provider) returns (r: Result<()>)
    requires CurrentOf(config.apps, Claude) == Some((id, p))
    modifies fs, config
    ensures config.mcp == old(config.mcp)
    ensures Agrees(config.apps, fs.files, r, SyncForApp(old(config.apps), config.mcp, old(fs.files), h, Claude))
  {
    fs.files := fs.files.(claudeSettings := Present(p.settingsConfig));
    var live := ReadRequired(fs.files.claudeSettings, ClaudeSettingsPath, Io("cannot read " + ClaudeSettingsPath));
    StoreSettings(config, Claude, id, live.value);
    r := Ok(());
  }

  /** `sync_codex_live`; a failed shape check is reported with its own message. */
  method SyncCodexLive(fs: FileSystem, config: LegacyConfig, h: SyncHooks, id: string, p: Provider) returns (r: Result<()>)
    requires CurrentOf(config.apps, Codex) == Some((id, p))
    modifies fs, config
    ensures config.mcp == old(config.mcp)
    ensures Agrees(config.apps, fs.files, r, SyncForApp(old(config.apps), config.mcp, old(fs.files), h, Codex))
    ensures CodexShape(id, p.settingsConfig).Err? ==> r == Err(CodexShape(id, p.settingsConfig).error)
  {
    var s := p.settingsConfig;
    var auth := CodexShape(id, s);
    if auth.Err? {
      return Err(auth.error);
    }
    var w := WriteCodexLiveAtomic(fs, auth.value, GetStr(s, "config"), h.codec.parse);
    if w.Err? {
      return w;
    }
    var m := SyncEnabledToCodex(fs, config.mcp, h.extract, h.codec.parse, h.codec.render, h.codec.toFloat);
    if m.Err? {
      return m;
    }
    var after := ReadConfigText(fs.files.codexConfig, h.codec.parse);
    if after.Err? {
      return Err(after.error);
    }
    var target := config.apps[AppName(Codex)].providers[id].settingsConfig;
    if target.JObj? {
      StoreSettings(config, Codex, id, JObj(target.fields["config" := JStr(after.value)]));
    }
    r := Ok(());
  }

  /** `sync_gemini_live` */
  method SyncGeminiLive(fs: FileSystem, config: LegacyConfig, h: SyncHooks, id: string, p: Provider) returns (r: Result<()>)
    requires CurrentOf(config.apps, Gemini) == Some((id, p))
    modifies fs, config
    ensures config.mcp == old(config.mcp)
    ensures Agrees(config.apps, fs.files, r, SyncForApp(old(config.apps), config.mcp, old(fs.files), h, Gemini))
  {
    var w := WriteGeminiLive(fs, p, h.gem);
    if w.Err? {
      return w;
    }
    var live := ReadLiveSettings(Gemini, fs.files, h.codec.parse);
    StoreSettings(config, Gemini, id, live.value);
    r := Ok(());
  }

  /** `sync_grok_live` */
  method SyncGrokLive(fs: FileSystem, config: LegacyConfig, h: SyncHooks, id: string, p: Provider) returns (r: Result<()>)
    requires CurrentOf(config.apps, Grok) == Some((id, p))
    modifies fs, config
    ensures config.mcp == old(config.mcp)
    ensures Agrees(config.apps, fs.files, r, SyncForApp(old(config.apps), config.mcp, old(fs.files), h, Grok))
  {
    var g := FromJson(p.settingsConfig);
    if g.Err? {
      return Err(g.error);
    }
    WriteGrokSettings(fs, g.value);
    var m := McpGrok.SyncEnabledToGrok(fs, config.mcp, h.extract);
    if m.Err? {
      return m;
    }
    GrokReadsBack(g.value, McpGrok.GrokEnabled(config.mcp, h.extract));
    var back := ReadGrokSettings(fs.files.grokSettings);
    StoreSettings(config, Grok, id, ToJson(back.value));
    r := Ok(());
  }

  /** `sync_current_provider_for_app` */
  method SyncCurrentProviderForApp(fs: FileSystem, config: LegacyConfig, h: SyncHooks, app: AppType) returns (r: Result<()>)
    modifies fs, config
    ensures config.mcp == old(config.mcp)
    ensures Agrees(config.apps, fs.files, r, SyncForApp(old(config.apps), config.mcp, old(fs.files), h, app))
  {
    var cur := CurrentOf(config.apps, app);
    if cur.None? {
      return Ok(());
    }
    var id, p := cur.value.0, cur.value.1;
    match app
    case Codex => r := SyncCodexLive(fs, config, h, id, p);
    case Claude => r := SyncClaudeLive(fs, config, h, id, p);
    case Gemini => r := SyncGeminiLive(fs, config, h, id, p);
    case Grok => r := SyncGrokLive(fs, config, h, id, p);
    case Qwen => r := Ok(());
  }

  /** `sync_current_providers_to_live` */
  method SyncCurrentProvidersToLive(fs: FileSystem, config: LegacyConfig, h: SyncHooks) returns (r: Result<()>)
    modifies fs, config
    ensures config.mcp == old(config.mcp)
    ensures Agrees(config.apps, fs.files, r, SyncAll(old(config.apps), config.mcp, old(fs.files), h))
  {
    r := SyncCurrentProviderForApp(fs, config, h, Claude);
    if r.Err? {
      return;
    }
    r := SyncCurrentProviderForApp(fs, config, h, Codex);
    if r.Err? {
      return;
    }
    r := SyncCurrentProviderForApp(fs, config, h, Gemini);
    if r.Err? {
      return;
    }
    r := SyncCurrentProviderForApp(fs, config, h, Grok);
    if r.Err? {
      return;
    }
    r := SyncCurrentProviderForApp(fs, config, h, Qwen);
  }

  // ---------------------------------------------------------------------------
  // What the sync promises
  // ---------------------------------------------------------------------------

  /**
   * The stored current provider of `app` mirrors its live files: Claude's and
   * Grok's settings are the file, Codex's `auth` and `config` are
   * `auth.json` and the text of `config.toml`, Gemini's are what reading its
   * live files gives. Qwen is not synced.
   */
  predicate Mirrors(apps: map<string, ProviderManager>, files: Files, app: AppType, parse: TomlParser)
  {
    match CurrentOf(apps, app)
    case None => true
    case Some(cur) =>
      var stored := cur.1.settingsConfig;
      match app
      case Claude => files.claudeSettings == Present(stored)
      case Codex =>
        stored.JObj? && "auth" in stored.fields && "config" in stored.fields &&
        files.codexAuth == Present(stored.fields["auth"]) &&
        files.codexConfig.Present? && stored.fields["config"] == JStr(files.codexConfig.value)
      case Gemini => ReadLiveSettings(Gemini, files, parse) == Ok(stored)
      case Grok => files.grokSettings == Present(stored)
      case Qwen => true
  }

  /** Only the current provider of `app` may change: every current-provider marker, every other manager and every other provider stay. */
  predicate OnlyCurrentChanged(apps: map<string, ProviderManager>, after: map<string, ProviderManager>, app: AppType)
  {
    after.Keys == apps.Keys &&
    (forall a :: a in apps && a != AppName(app) ==> after[a] == apps[a]) &&
    (AppName(app) in apps ==>
      var m, n := apps[AppName(app)], after[AppName(app)];
      n.current == m.current && n.providers.Keys == m.providers.Keys &&
      forall k :: k in m.providers && k != m.current ==> n.providers[k] == m.providers[k])
  }

  /** The store-back keeps the current-provider marker and names the same provider. */
  lemma StoreBackCurrent(apps: map<string, ProviderManager>, app: AppType, id: string, s: Json)
    requires CurrentOf(apps, app).Some? && CurrentOf(apps, app).value.0 == id
    ensures CurrentOf(StoreBack(apps, app, id, s), app) == Some((id, CurrentOf(apps, app).value.1.(settingsConfig := s)))
    ensures OnlyCurrentChanged(apps, StoreBack(apps, app, id, s), app)
  {
  }

  /** Each application's own sync writes only that application's files. */
  lemma AppSyncFrame(app: AppType, id: string, p: Provider, files: Files, mcp: McpConfig, h: SyncHooks)
    requires app != Qwen
    ensures OnlyAppFiles(files, AppSync(app, id, p, files, mcp, h).files, app)
  {
    match app
    case Claude =>
    case Codex => CodexSyncFrame(id, p.settingsConfig, files, mcp, h);
    case Gemini =>
    case Grok =>
  }

  /** The Codex sync writes `auth.json` and `config.toml` and nothing else. */
  lemma CodexSyncFrame(id: string, s: Json, files: Files, mcp: McpConfig, h: SyncHooks)
    ensures var g := CodexSync(id, s, files, mcp, h).files;
      g.(codexAuth := files.codexAuth, codexConfig := files.codexConfig) == files
  {
  }

  /** One application's sync writes only that application's files and changes only its current provider. */
  lemma SyncForAppFrame(apps: map<string, ProviderManager>, mcp: McpConfig, files: Files, h: SyncHooks, app: AppType)
    ensures OnlyAppFiles(files, SyncForApp(apps, mcp, files, h, app).files, app)
    ensures OnlyCurrentChanged(apps, SyncForApp(apps, mcp, files, h, app).apps, app)
  {
    var cur := CurrentOf(apps, app);
    if cur.Some? && app != Qwen {
      var o := AppSync(app, cur.value.0, cur.value.1, files, mcp, h);
      AppSyncFrame(app, cur.value.0, cur.value.1, files, mcp, h);
      if o.settings.Ok? {
        StoreBackCurrent(apps, app, cur.value.0, o.settings.value);
      }
    }
  }

  /** A successful sync of `app` leaves its stored current provider mirroring its live files. */
  lemma SyncForAppMirrors(apps: map<string, ProviderManager>, mcp: McpConfig, files: Files, h: SyncHooks, app: AppType)
    requires SyncForApp(apps, mcp, files, h, app).result.Ok?
    ensures Mirrors(SyncForApp(apps, mcp, files, h, app).apps, SyncForApp(apps, mcp, files, h, app).files, app, h.codec.parse)
  {
    var cur := CurrentOf(apps, app);
    if cur.Some? && app != Qwen {
      var o := AppSync(app, cur.value.0, cur.value.1, files, mcp, h);
      StoreBackCurrent(apps, app, cur.value.0, o.settings.value);
      if app == Grok {
        GrokReadBack(cur.value.1.settingsConfig, files, mcp, h);
      }
    }
  }

  /** The Grok read-back is the file's own content: the record written parses back to itself. */
  lemma GrokReadBack(s: Json, files: Files, mcp: McpConfig, h: SyncHooks)
    requires GrokSync(s, files, mcp, h).settings.Ok?
    ensures GrokSync(s, files, mcp, h).files.grokSettings == Present(GrokSync(s, files, mcp, h).settings.value)
  {
    var g := FromJson(s).value;
    RoundTrip(g);
    var t := g.(mcpServers := Some(LiveEntries(McpGrok.GrokEnabled(mcp, h.extract))));
    RoundTrip(t);
  }

  /**
   * With a faithful TOML renderer, a Codex sync succeeds exactly when the
   * settings pass the shape checks and their config text is valid, and the
   * `[mcp_servers]` table it leaves in `config.toml` is exactly the enabled
   * Codex servers, every other table of the provider's text kept.
   */
  lemma CodexSyncServers(id: string, s: Json, files: Files, mcp: McpConfig, h: SyncHooks)
    requires RendersFaithfully(h.codec)
    ensures CodexSync(id, s, files, mcp, h).settings.Ok? <==>
      CodexShape(id, s).Ok? && ConfigTextValid(GetStr(s, "config").UnwrapOr(""), h.codec.parse)
    ensures CodexSync(id, s, files, mcp, h).settings.Ok? ==>
      var text := CodexSync(id, s, files, mcp, h).files.codexConfig.value;
      var base := BaseDoc(GetStr(s, "config").UnwrapOr(""), h.codec.parse);
      h.codec.parse(text).Some? &&
      CurrentServers(h.codec.parse(text).value) == ServersTable(EnabledSpecs(mcp.codex, h.extract), h.codec.toFloat) &&
      forall k :: k != "mcp" && k != "mcp_servers" ==>
        (k in h.codec.parse(text).value <==> k in base) && (k in base ==> h.codec.parse(text).value[k] == base[k])
  {
    var auth := CodexShape(id, s);
    if auth.Ok? {
      var w := CodexLiveWrite(auth.value, GetStr(s, "config"), files, h.codec.parse);
      if w.Ok? {
        var text := ReadConfigText(w.value.codexConfig, h.codec.parse);
        var doc := SyncedDoc(BaseDoc(text.value, h.codec.parse), ServersTable(EnabledSpecs(mcp.codex, h.extract), h.codec.toFloat));
        assert h.codec.parse(h.codec.render(doc)) == Some(doc);
      }
    }
  }

  /**
   * A Grok sync succeeds exactly when the settings convert to the typed
   * record and every enabled server can be written; the stored settings are
   * then that record with `mcpServers` replaced by the enabled servers.
   */
  lemma GrokSyncResult(s: Json, files: Files, mcp: McpConfig, h: SyncHooks)
    ensures var enabled := McpGrok.GrokEnabled(mcp, h.extract);
      GrokSync(s, files, mcp, h).settings.Ok? <==> FromJson(s).Ok? && AllEntriesValid(enabled)
    ensures var enabled := McpGrok.GrokEnabled(mcp, h.extract);
      GrokSync(s, files, mcp, h).settings.Ok? ==>
      FromJson(GrokSync(s, files, mcp, h).settings.value) == Ok(FromJson(s).value.(mcpServers := Some(LiveEntries(enabled))))
  {
    var enabled := McpGrok.GrokEnabled(mcp, h.extract);
    if FromJson(s).Ok? && AllEntriesValid(enabled) {
      GrokReadsBack(FromJson(s).value, enabled);
      RoundTrip(FromJson(s).value.(mcpServers := Some(LiveEntries(enabled))));
    }
  }

  /** A record written with its MCP servers replaced reads back as that record. */
  lemma GrokReadsBack(g: GrokSettings, enabled: map<string, Json>)
    requires g.settingsVersion < U32Limit && AllEntriesValid(enabled)
    ensures ReadGrokSettings(Present(ToJson(g))) == Ok(g)
    ensures var t := g.(mcpServers := Some(LiveEntries(enabled)));
      ReadGrokSettings(Present(ToJson(t))) == Ok(t)
  {
    RoundTrip(g);
    RoundTrip(g.(mcpServers := Some(LiveEntries(enabled))));
  }

  /** Mirroring depends only on the application's own files and manager. */
  lemma MirrorsFrame(apps: map<string, ProviderManager>, files: Files, after: map<string, ProviderManager>, g: Files,
                     app: AppType, other: AppType, parse: TomlParser)
    requires other != app && Mirrors(apps, files, app, parse)
    requires OnlyAppFiles(files, g, other) && OnlyCurrentChanged(apps, after, other)
    ensures Mirrors(after, g, app, parse)
  {
    assert CurrentOf(after, app) == CurrentOf(apps, app);
  }

  /** A later step for another application keeps an application's mirror. */
  lemma ThenKeeps(s: Synced, mcp: McpConfig, h: SyncHooks, other: AppType, app: AppType)
    requires other != app && Mirrors(s.apps, s.files, app, h.codec.parse)
    ensures Mirrors(Then(s, mcp, h, other).apps, Then(s, mcp, h, other).files, app, h.codec.parse)
  {
    if s.result.Ok? {
      SyncForAppFrame(s.apps, mcp, s.files, h, other);
      MirrorsFrame(s.apps, s.files, SyncForApp(s.apps, mcp, s.files, h, other).apps,
                   SyncForApp(s.apps, mcp, s.files, h, other).files, app, other, h.codec.parse);
    }
  }

  /**
   * After `sync_current_providers_to_live` succeeds, every synced
   * application's stored current provider mirrors its live files.
   */
  lemma SyncAllMirrors(apps: map<string, ProviderManager>, mcp: McpConfig, files: Files, h: SyncHooks, app: AppType)
    requires SyncAll(apps, mcp, files, h).result.Ok?
    ensures Mirrors(SyncAll(apps, mcp, files, h).apps, SyncAll(apps, mcp, files, h).files, app, h.codec.parse)
  {
    var s1 := SyncForApp(apps, mcp, files, h, Claude);
    var s2 := Then(s1, mcp, h, Codex);
    var s3 := Then(s2, mcp, h, Gemini);
    var s4 := Then(s3, mcp, h, Grok);
    assert s4.result.Ok? && s3.result.Ok? && s2.result.Ok? && s1.result.Ok?;
    if app == Claude {
      SyncForAppMirrors(apps, mcp, files, h, Claude);
      ThenKeeps(s1, mcp, h, Codex, app);
      ThenKeeps(s2, mcp, h, Gemini, app);
      ThenKeeps(s3, mcp, h, Grok, app);
      ThenKeeps(s4, mcp, h, Qwen, app);
    }
    if app == Codex {
      SyncForAppMirrors(s1.apps, mcp, s1.files, h, Codex);
      ThenKeeps(s2, mcp, h, Gemini, app);
      ThenKeeps(s3, mcp, h, Grok, app);
      ThenKeeps(s4, mcp, h, Qwen, app);
    }
    if app == Gemini {
      SyncForAppMirrors(s2.apps, mcp, s2.files, h, Gemini);
      ThenKeeps(s3, mcp, h, Grok, app);
      ThenKeeps(s4, mcp, h, Qwen, app);
    }
    if app == Grok {
      SyncForAppMirrors(s3.apps, mcp, s3.files, h, Grok);
      ThenKeeps(s4, mcp, h, Qwen, app);
    }
  }
}
