/**
 * Device-level settings (settings.rs): the settings record, its normalisation,
 * the override directories, the per-application current provider kept on
 * this device, and the process-wide cache backed by `settings.json`.
 */
module Settings {
  import opened Wrappers
  import opened Values
  import opened Text
  import opened Store

  /**
   * `AppSettings`. The record has no Grok fields in the source; the model keeps
   * a Grok current-provider slot so that all five applications have one.
   */
  datatype AppSettings = AppSettings(
    showInTray: bool,
    minimizeToTrayOnClose: bool,
    enableClaudePluginIntegration: bool,
    launchOnStartup: bool,
    language: Option<string>,
    claudeConfigDir: Option<string>,
    codexConfigDir: Option<string>,
    geminiConfigDir: Option<string>,
    qwenConfigDir: Option<string>,
    currentProviderClaude: Option<string>,
    currentProviderCodex: Option<string>,
    currentProviderGemini: Option<string>,
    currentProviderGrok: Option<string>,
    currentProviderQwen: Option<string>)

  /** `AppSettings::default()`: both tray options on, everything else off or unset. */
  const DefaultSettings: AppSettings :=
    AppSettings(true, true, false, false, None, None, None, None, None, None, None, None, None, None)

  /** The languages the interface offers. */
  const Languages: set<string> := {"en", "zh", "ja"}

  /** A directory override is trimmed, and dropped when nothing is left. */
  function NormalizeDir(d: Option<string>): (r: Option<string>)
    ensures r.None? <==> d.None? || IsBlank(d.value)
    ensures r.Some? ==> r.value == Trim(d.value) && r.value != []
  {
    if d.Some? && Trim(d.value) != [] then Some(Trim(d.value)) else None
  }

  /** A language is trimmed, and dropped unless it is one the interface offers. */
  function NormalizeLanguage(l: Option<string>): (r: Option<string>)
    ensures r.Some? <==> l.Some? && Trim(l.value) in Languages
    ensures r.Some? ==> r.value == Trim(l.value)
  {
    if l.Some? && Trim(l.value) in Languages then Some(Trim(l.value)) else None
  }

  /** `normalize_paths`: the four directory overrides and the language; nothing else changes. */
  function Normalize(s: AppSettings): AppSettings
  {
    s.(language := NormalizeLanguage(s.language),
       claudeConfigDir := NormalizeDir(s.claudeConfigDir),
       codexConfigDir := NormalizeDir(s.codexConfigDir),
       geminiConfigDir := NormalizeDir(s.geminiConfigDir),
       qwenConfigDir := NormalizeDir(s.qwenConfigDir))
  }

  /** A setting that normalisation leaves as it is. */
  predicate Normalized(s: AppSettings)
  {
    (s.language.Some? ==> s.language.value in Languages) &&
    (s.claudeConfigDir.Some? ==> DirClean(s.claudeConfigDir.value)) &&
    (s.codexConfigDir.Some? ==> DirClean(s.codexConfigDir.value)) &&
    (s.geminiConfigDir.Some? ==> DirClean(s.geminiConfigDir.value)) &&
    (s.qwenConfigDir.Some? ==> DirClean(s.qwenConfigDir.value))
  }

  predicate DirClean(d: string)
  {
    d != [] && Trim(d) == d
  }

  lemma NormalizeDirClean(d: Option<string>)
    ensures NormalizeDir(d).Some? ==> DirClean(NormalizeDir(d).value)
    ensures d.Some? && DirClean(d.value) ==> NormalizeDir(d) == d
  {
    if d.Some? {
      TrimIdempotent(d.value);
    }
  }

  lemma NormalizeLanguageClean(l: Option<string>)
    ensures NormalizeLanguage(l).Some? ==> NormalizeLanguage(l).value in Languages
    ensures l.Some? && l.value in Languages ==> NormalizeLanguage(l) == l
  {
    if l.Some? && l.value in Languages {
      assert Trim("en") == "en" by { TrimOfLanguage("en"); }
      assert Trim("zh") == "zh" by { TrimOfLanguage("zh"); }
      assert Trim("ja") == "ja" by { TrimOfLanguage("ja"); }
    }
  }

  /** A two-letter code without whitespace is its own trim. */
  lemma TrimOfLanguage(c: string)
    requires |c| == 2 && !IsWhitespace(c[0]) && !IsWhitespace(c[1])
    ensures Trim(c) == c
  {
    assert TrimStart(c) == c;
    assert TrimEnd(c) == c;
  }

  /** Normalised settings are exactly the fixed points of normalisation, and normalising twice is normalising once. */
  lemma NormalizeIdempotent(s: AppSettings)
    ensures Normalized(Normalize(s))
    ensures Normalize(Normalize(s)) == Normalize(s)
    ensures Normalized(s) <==> Normalize(s) == s
  {
    NormalizeLanguageClean(s.language);
    NormalizeDirClean(s.claudeConfigDir);
    NormalizeDirClean(s.codexConfigDir);
    NormalizeDirClean(s.geminiConfigDir);
    NormalizeDirClean(s.qwenConfigDir);
    var n := Normalize(s);
    NormalizeLanguageClean(n.language);
    NormalizeDirClean(n.claudeConfigDir);
    NormalizeDirClean(n.codexConfigDir);
    NormalizeDirClean(n.geminiConfigDir);
    NormalizeDirClean(n.qwenConfigDir);
  }

  /** `get_current_provider`: the locally stored current provider of `app`. */
  function CurrentProviderOf(s: AppSettings, app: AppType): Option<string>
  {
    match app
    case Claude => s.currentProviderClaude
    case Codex => s.currentProviderCodex
    case Gemini => s.currentProviderGemini
    case Grok => s.currentProviderGrok
    case Qwen => s.currentProviderQwen
  }

  /** The settings with `app`'s current provider set to `id` (`None` clears it). */
  function WithCurrentProvider(s: AppSettings, app: AppType, id: Option<string>): (r: AppSettings)
    ensures CurrentProviderOf(r, app) == id
    ensures forall other :: other != app ==> CurrentProviderOf(r, other) == CurrentProviderOf(s, other)
    ensures r.language == s.language && r.claudeConfigDir == s.claudeConfigDir && r.codexConfigDir == s.codexConfigDir
    ensures r.geminiConfigDir == s.geminiConfigDir && r.qwenConfigDir == s.qwenConfigDir
    ensures r.showInTray == s.showInTray && r.minimizeToTrayOnClose == s.minimizeToTrayOnClose
    ensures r.enableClaudePluginIntegration == s.enableClaudePluginIntegration && r.launchOnStartup == s.launchOnStartup
  {
    match app
    case Claude => s.(currentProviderClaude := id)
    case Codex => s.(currentProviderCodex := id)
    case Gemini => s.(currentProviderGemini := id)
    case Grok => s.(currentProviderGrok := id)
    case Qwen => s.(currentProviderQwen := id)
  }

  /** Normalisation never touches the current providers. */
  lemma NormalizeKeepsCurrent(s: AppSettings, app: AppType)
    ensures CurrentProviderOf(Normalize(s), app) == CurrentProviderOf(s, app)
  {
  }

  // ---------------------------------------------------------------------------
  // Override directories
  // ---------------------------------------------------------------------------

  /** `PathBuf::join` on Unix: an absolute `rel` replaces `base`, otherwise one `/` separates them. */
  function JoinPath(base: string, rel: string): (r: string)
    ensures StartsWith(rel, "/") ==> r == rel
    ensures !StartsWith(rel, "/") ==> |r| >= |base| + |rel| && StartsWith(r, base) && r[|r| - |rel|..] == rel
  {
    if StartsWith(rel, "/") then rel
    else if base == [] || base[|base| - 1] == '/' then base + rel
    else base + "/" + rel
  }

  /**
   * `resolve_override_path`: `~` is the home directory, and `~/x` or `~\x` is `x`
   * under it; everything else, and everything when the home directory is
   * unknown, is taken as written.
   */
  function ResolveOverridePath(raw: string, home: Option<string>): (r: string)
    ensures home.None? ==> r == raw
    ensures !StartsWith(raw, "~") ==> r == raw
    ensures raw == "~" && home.Some? ==> r == home.value
  {
    if raw == "~" then
      if home.Some? then home.value else raw
    else if StartsWith(raw, "~/") then
      if home.Some? then JoinPath(home.value, raw[2..]) else raw
    else if StartsWith(raw, "~\\") then
      if home.Some? then JoinPath(home.value, raw[2..]) else raw
    else raw
  }

  /** A relative path after `~/` lands under the home directory. */
  lemma ResolveUnderHome(rel: string, home: string)
    requires !StartsWith(rel, "/")
    ensures StartsWith(ResolveOverridePath("~/" + rel, Some(home)), home)
  {
    var raw := "~/" + rel;
    assert StartsWith(raw, "~/");
    assert raw != "~";
    assert raw[2..] == rel;
  }

  /** The override directory of `app`, as written in the settings. */
  function ConfigDirOf(s: AppSettings, app: AppType): Option<string>
  {
    match app
    case Claude => s.claudeConfigDir
    case Codex => s.codexConfigDir
    case Gemini => s.geminiConfigDir
    case Grok => None
    case Qwen => s.qwenConfigDir
  }

  // ---------------------------------------------------------------------------
  // The settings file and the cache
  // ---------------------------------------------------------------------------

  /** `~/.cc-switch/settings.json`: absent or unreadable, not a settings record, or one. */
  datatype SettingsFile = Missing | Unparsable(text: string) | Holds(settings: AppSettings)

  /** `load_from_file`: the file's settings normalised, or the defaults when there are none. */
  function LoadFromFile(f: SettingsFile): (r: AppSettings)
    ensures Normalized(r)
    ensures f.Holds? ==> r == Normalize(f.settings)
    ensures !f.Holds? ==> r == DefaultSettings
  {
    NormalizeIdempotent(if f.Holds? then f.settings else DefaultSettings);
    if f.Holds? then Normalize(f.settings) else DefaultSettings
  }

  /** Saving normalised settings and loading them back gives them back. */
  lemma SaveLoadRoundTrip(s: AppSettings)
    ensures LoadFromFile(Holds(Normalize(s))) == Normalize(s)
  {
    NormalizeIdempotent(s);
  }

  /**
   * The process-wide settings: `cache` is what `get_settings` returns (loaded
   * from the file on first use) and `file` is `settings.json`.
   */
  class SettingsStore {
    var cache: AppSettings
    var file: SettingsFile

    /** `settings_store()` on first use: the cache is loaded from the file. */
    constructor (file: SettingsFile)
      ensures this.file == file && cache == LoadFromFile(file)
    {
      this.file := file;
      cache := LoadFromFile(file);
    }

    /** The cache only ever holds normalised settings. */
    ghost predicate Valid()
      reads this
    {
      Normalized(cache)
    }

    /** `get_current_provider(app)` */
    function GetCurrentProvider(app: AppType): Option<string>
      reads this
    {
      CurrentProviderOf(cache, app)
    }

    /** `get_*_override_dir()`: the override of `app` resolved against the home directory. */
    function OverrideDir(app: AppType, home: Option<string>): (r: Option<string>)
      reads this
      ensures r.Some? <==> ConfigDirOf(cache, app).Some?
      ensures r.Some? && home.None? ==> r.value == ConfigDirOf(cache, app).value
    {
      var d := ConfigDirOf(cache, app);
      if d.Some? then Some(ResolveOverridePath(d.value, home)) else None
    }

    /**
     * `update_settings`: normalise, write the file, then replace the cache. When
     * the write fails (`writeFails`) the error is returned and nothing changes.
     */
    method UpdateSettings(s: AppSettings, writeFails: bool) returns (r: Result<()>)
      requires Valid()
      modifies this
      ensures Valid()
      ensures r.Err? <==> writeFails
      ensures writeFails ==> cache == old(cache) && file == old(file)
      ensures !writeFails ==> cache == Normalize(s) && file == Holds(Normalize(s))
    {
      var normalized := Normalize(s);
      NormalizeIdempotent(s);
      if writeFails {
        return Err(Io("cannot write settings.json"));
      }
      file := Holds(Normalize(normalized));
      cache := normalized;
      r := Ok(());
    }

    /** `reload_settings`: the cache is loaded again from the file. */
    method ReloadSettings()
      modifies this
      ensures Valid() && file == old(file) && cache == LoadFromFile(file)
    {
      cache := LoadFromFile(file);
    }

    /** `set_current_provider(app, id)`: the cached settings with `app`'s entry replaced, saved. */
    method SetCurrentProvider(app: AppType, id: Option<string>, writeFails: bool) returns (r: Result<()>)
      requires Valid()
      modifies this
      ensures Valid()
      ensures r.Err? <==> writeFails
      ensures writeFails ==> cache == old(cache) && file == old(file)
      ensures !writeFails ==> cache == WithCurrentProvider(old(cache), app, id) && file == Holds(cache)
    {
      var s := WithCurrentProvider(cache, app, id);
      NormalizeIdempotent(cache);
      assert Normalized(s);
      NormalizeIdempotent(s);
      r := UpdateSettings(s, writeFails);
    }

    /**
     * `get_effective_current_provider(db, app)`: the local id when the store
     * holds that provider; otherwise the local entry is cleared (a failed write
     * is ignored) and the store's own current flag decides.
     */
    method GetEffectiveCurrentProvider(db: Database, app: AppType, writeFails: bool) returns (r: Option<string>)
      requires Valid()
      modifies this
      ensures Valid()
      ensures r.Some? ==> r.value in db.AppIds(AppName(app))
      ensures old(GetCurrentProvider(app)).Some? && old(GetCurrentProvider(app)).value in db.AppIds(AppName(app)) ==>
        r == old(GetCurrentProvider(app)) && cache == old(cache) && file == old(file)
      ensures !(old(GetCurrentProvider(app)).Some? && old(GetCurrentProvider(app)).value in db.AppIds(AppName(app))) ==>
        (r.Some? ==> r.value in db.CurrentIds(AppName(app))) && (r.None? <==> db.CurrentIds(AppName(app)) == {})
      ensures old(GetCurrentProvider(app)).Some? && old(GetCurrentProvider(app)).value !in db.AppIds(AppName(app)) && !writeFails ==>
        GetCurrentProvider(app) == None
      ensures forall other :: other != app ==> GetCurrentProvider(other) == old(GetCurrentProvider(other))
    {
      var local := GetCurrentProvider(app);
      if local.Some? {
        var providers := db.GetAllProviders(AppName(app));
        if exists i :: 0 <= i < |providers| && providers[i].id == local.value {
          return local;
        }
        var _ := SetCurrentProvider(app, None, writeFails);
      }
      r := db.GetCurrentProvider(AppName(app));
    }
  }
}
