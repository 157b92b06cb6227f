/**
 * The MCP service (services/mcp.rs): the unified servers in the store, and
 * their projection into each application's live file through the
 * per-application modules. Qwen has no projection: syncing to or removing from
 * Qwen does nothing.
 */
module McpService {
  import opened Wrappers
  import opened Values
  import opened Records
  import opened LiveFiles
  import opened McpJsonFile
  import opened McpImport
  import opened CodexConvert
  import opened McpCodex
  import opened GrokConfig
  import opened Store
  import opened Text
  import opened Collections
  import McpClaude
  import McpGemini
  import McpGrok

  /** How `config.toml` is read and written: the TOML parser, the renderer and the integer-to-float cast. */
  datatype Codec = Codec(parse: TomlParser, render: TomlDoc -> string, toFloat: int -> Float)

  /** The renderer writes what the parser reads back (`toml_edit` keeps a document it printed). */
  ghost predicate RendersFaithfully(c: Codec)
  {
    forall d :: c.parse(c.render(d)) == Some(d)
  }

  // ---------------------------------------------------------------------------
  // What an application's live file says about one server
  // ---------------------------------------------------------------------------

  /** The Codex `[mcp_servers]` table of a readable `config.toml`. */
  function CodexTable(f: Files, c: Codec): Option<map<string, Toml>>
  {
    if f.codexConfig.Present? && c.parse(f.codexConfig.value).Some? then Some(CurrentServers(c.parse(f.codexConfig.value).value))
    else None
  }

  /** `id` has an entry in `app`'s live MCP map. Qwen has none to look at. */
  predicate Listed(f: Files, app: AppType, id: string, c: Codec)
  {
    match app
    case Claude => ReadServersMap(f.claudeMcp).Ok? && id in ReadServersMap(f.claudeMcp).value
    case Codex => CodexTable(f, c).Some? && id in CodexTable(f, c).value
    case Gemini => ReadServersMap(f.geminiSettings).Ok? && id in ReadServersMap(f.geminiSettings).value
    case Grok => ReadMcpServersMap(f.grokSettings).Ok? && id in ReadMcpServersMap(f.grokSettings).value
    case Qwen => true
  }

  /** `app`'s live MCP map holds `spec` under `id`, in that application's own form. */
  predicate Projected(f: Files, app: AppType, id: string, spec: Json, c: Codec)
  {
    match app
    case Claude => ReadServersMap(f.claudeMcp).Ok? && id in ReadServersMap(f.claudeMcp).value &&
                   ReadServersMap(f.claudeMcp).value[id] == spec
    case Codex => CodexTable(f, c).Some? && id in CodexTable(f, c).value &&
                  CodexTable(f, c).value[id] == TTable(ServerTable(spec, c.toFloat))
    case Gemini => ReadServersMap(f.geminiSettings).Ok? && id in ReadServersMap(f.geminiSettings).value &&
                   ReadServersMap(f.geminiSettings).value[id] == spec
    case Grok => LiveEntry(id, spec).Ok? && ReadMcpServersMap(f.grokSettings).Ok? && id in ReadMcpServersMap(f.grokSettings).value &&
                 ReadMcpServersMap(f.grokSettings).value[id] == JObj(LiveEntry(id, spec).value)
    case Qwen => true
  }

  /** `app`'s live file is readable and has no entry for `id` (for Codex: in neither servers table). */
  predicate Withdrawn(f: Files, app: AppType, id: string, c: Codec)
  {
    match app
    case Claude => ReadServersMap(f.claudeMcp).Ok? && id !in ReadServersMap(f.claudeMcp).value
    case Codex => f.codexConfig.Absent? ||
                  (f.codexConfig.Present? && c.parse(f.codexConfig.value).Some? &&
                   id !in CurrentServers(c.parse(f.codexConfig.value).value) &&
                   id !in LegacyServers(c.parse(f.codexConfig.value).value))
    case Gemini => ReadServersMap(f.geminiSettings).Ok? && id !in ReadServersMap(f.geminiSettings).value
    case Grok => ReadMcpServersMap(f.grokSettings).Ok? && id !in ReadMcpServersMap(f.grokSettings).value
    case Qwen => true
  }

  /** The document a Codex single-server sync starts from, when the file can be read. */
  function CodexBase(f: Files, c: Codec): Option<TomlDoc>
  {
    match f.codexConfig
    case Absent => Some(map[])
    case Unreadable => None
    case Present(t) => c.parse(t)
  }

  /** When `sync_single_server_to_<app>` succeeds for `id` and `spec`. */
  predicate SyncAccepted(f: Files, app: AppType, id: string, spec: Json, c: Codec)
  {
    match app
    case Claude => f.claudeMcp.Absent? || (f.claudeMcp.Present? && f.claudeMcp.value.JObj?)
    case Codex => CodexBase(f, c).Some? && SingleSyncedDoc(CodexBase(f, c).value, id, ServerTable(spec, c.toFloat)).Ok?
    case Gemini => f.geminiSettings.Absent? || (f.geminiSettings.Present? && f.geminiSettings.value.JObj?)
    case Grok => ReadGrokSettings(f.grokSettings).Ok? && AllEntriesValid(ReadMcpServersMap(f.grokSettings).value[id := spec])
    case Qwen => true
  }

  /** When `remove_server_from_<app>` succeeds for `id`. */
  predicate RemoveAccepted(f: Files, app: AppType, id: string, c: Codec)
  {
    match app
    case Claude => f.claudeMcp.Absent? || (f.claudeMcp.Present? && f.claudeMcp.value.JObj?)
    case Codex => f.codexConfig.Absent? || (f.codexConfig.Present? && c.parse(f.codexConfig.value).Some?)
    case Gemini => f.geminiSettings.Absent? || (f.geminiSettings.Present? && f.geminiSettings.value.JObj?)
    case Grok => ReadGrokSettings(f.grokSettings).Ok? && AllEntriesValid(ReadMcpServersMap(f.grokSettings).value - {id})
    case Qwen => true
  }

  /** `g` differs from `f` at most in the MCP files of `apps`; the other live files stay. */
  predicate Touched(f: Files, g: Files, apps: set<AppType>)
  {
    g.claudeSettings == f.claudeSettings && g.codexAuth == f.codexAuth && g.geminiEnv == f.geminiEnv &&
    g.qwenSettings == f.qwenSettings &&
    (Claude !in apps ==> g.claudeMcp == f.claudeMcp) &&
    (Codex !in apps ==> g.codexConfig == f.codexConfig) &&
    (Gemini !in apps ==> g.geminiSettings == f.geminiSettings) &&
    (Grok !in apps ==> g.grokSettings == f.grokSettings)
  }

  /** What the live files say about an application depends on its own MCP file only. */
  lemma UntouchedApp(f: Files, g: Files, apps: set<AppType>, a: AppType, c: Codec)
    requires Touched(f, g, apps) && a !in apps
    ensures forall id :: Listed(f, a, id, c) == Listed(g, a, id, c) && Withdrawn(f, a, id, c) == Withdrawn(g, a, id, c)
    ensures forall id, spec :: Projected(f, a, id, spec, c) == Projected(g, a, id, spec, c)
    ensures forall id, spec :: SyncAccepted(f, a, id, spec, c) == SyncAccepted(g, a, id, spec, c)
    ensures forall id :: RemoveAccepted(f, a, id, c) == RemoveAccepted(g, a, id, c)
  {
    if a == Codex {
      assert CodexTable(f, c) == CodexTable(g, c) && CodexBase(f, c) == CodexBase(g, c);
    }
  }

  // ---------------------------------------------------------------------------
  // One server, one application
  // ---------------------------------------------------------------------------

  /**
   * `sync_server_to_app_no_config`: the server's spec goes into `app`'s live
   * map under its id; every other entry of that map stays listed, and no other
   * file changes. A failure writes nothing.
   */
  method SyncServerToApp(fs: FileSystem, server: McpServer, app: AppType, c: Codec) returns (r: Result<()>)
    requires RendersFaithfully(c)
    modifies fs
    ensures Touched(old(fs.files), fs.files, {app})
    ensures r.Ok? <==> SyncAccepted(old(fs.files), app, server.id, server.server, c)
    ensures r.Err? ==> fs.files == old(fs.files)
    ensures r.Ok? ==> Projected(fs.files, app, server.id, server.server, c)
    ensures r.Ok? ==> forall id :: Listed(old(fs.files), app, id, c) ==> Listed(fs.files, app, id, c)
  {
    match app {
      case Claude =>
        r := McpClaude.SyncSingleServerToClaude(fs, server.id, server.server);
      case Codex =>
        r := SyncSingleServerToCodex(fs, server.id, server.server, c.parse, c.render, c.toFloat);
        if r.Ok? {
          var doc := CodexBase(old(fs.files), c).value;
          assert fs.files.codexConfig == Present(c.render(SingleSyncedDoc(doc, server.id, ServerTable(server.server, c.toFloat)).value));
        }
      case Gemini =>
        r := McpGemini.SyncSingleServerToGemini(fs, server.id, server.server);
      case Grok =>
        r := McpGrok.SyncSingleServerToGrok(fs, server.id, server.server);
        if r.Ok? {
          var m := ReadMcpServersMap(old(fs.files.grokSettings)).value[server.id := server.server];
          assert LiveEntry(server.id, m[server.id]).Ok?;
        }
      case Qwen =>
        r := Ok(());
    }
  }

  /**
   * `remove_server_from_app`: `id` leaves `app`'s live map; every other entry
   * stays listed, and no other file changes. A failure writes nothing.
   */
  method RemoveServerFromApp(fs: FileSystem, id: string, app: AppType, c: Codec) returns (r: Result<()>)
    requires RendersFaithfully(c)
    modifies fs
    ensures Touched(old(fs.files), fs.files, {app})
    ensures r.Ok? <==> RemoveAccepted(old(fs.files), app, id, c)
    ensures r.Err? ==> fs.files == old(fs.files)
    ensures r.Ok? ==> Withdrawn(fs.files, app, id, c)
    ensures r.Ok? ==> forall other :: other != id && Listed(old(fs.files), app, other, c) ==> Listed(fs.files, app, other, c)
  {
    match app {
      case Claude =>
        r := McpClaude.RemoveServerFromClaude(fs, id);
      case Codex =>
        r := RemoveServerFromCodex(fs, id, c.parse, c.render);
      case Gemini =>
        r := McpGemini.RemoveServerFromGemini(fs, id);
      case Grok =>
        r := McpGrok.RemoveServerFromGrok(fs, id);
      case Qwen =>
        r := Ok(());
    }
  }

  // ---------------------------------------------------------------------------
  // One server, every application it is enabled for
  // ---------------------------------------------------------------------------

  /** The applications a server is enabled for, as a set. */
  function AppSet(apps: McpApps): (s: set<AppType>)
    ensures forall a :: a in s <==> apps.Get(a)
  {
    (if apps.claude then {Claude} else {}) + (if apps.codex then {Codex} else {}) +
    (if apps.gemini then {Gemini} else {}) + (if apps.grok then {Grok} else {}) +
    (if apps.qwen then {Qwen} else {})
  }

  /** Touching more applications allows more change. */
  lemma TouchedMore(f: Files, g: Files, apps: set<AppType>, more: set<AppType>)
    requires Touched(f, g, apps) && apps <= more
    ensures Touched(f, g, more)
  {
  }

  /** Two changes in a row touch the applications either touched. */
  lemma TouchedThen(f: Files, g: Files, h: Files, apps: set<AppType>, more: set<AppType>)
    requires Touched(f, g, apps) && Touched(g, h, more)
    ensures Touched(f, h, apps + more)
  {
  }

  /** After syncing `id` to the applications in `done`: what the loop of `sync_server_to_apps` keeps. */
  ghost predicate SyncProgress(start: Files, now: Files, done: set<AppType>, id: string, spec: Json, c: Codec)
  {
    Touched(start, now, done) &&
    (forall a :: a in done ==> SyncAccepted(start, a, id, spec, c) && Projected(now, a, id, spec, c)) &&
    (forall a, x :: Listed(start, a, x, c) ==> Listed(now, a, x, c))
  }

  /** One more application synced keeps the progress. */
  lemma SyncStep(start: Files, before: Files, after: Files, done: set<AppType>, a: AppType, id: string, spec: Json, c: Codec)
    requires SyncProgress(start, before, done, id, spec, c) && a !in done
    requires Touched(before, after, {a}) && SyncAccepted(before, a, id, spec, c) && Projected(after, a, id, spec, c)
    requires forall x :: Listed(before, a, x, c) ==> Listed(after, a, x, c)
    ensures SyncProgress(start, after, done + {a}, id, spec, c)
  {
    UntouchedApp(start, before, done, a, c);
    forall b | b in done
      ensures Projected(after, b, id, spec, c)
    {
      UntouchedApp(before, after, {a}, b, c);
    }
    forall b, x | Listed(start, b, x, c)
      ensures Listed(after, b, x, c)
    {
      if b != a {
        UntouchedApp(before, after, {a}, b, c);
      }
    }
    TouchedThen(start, before, after, done, {a});
  }

  /** After removing `id` from the applications in `done`: what the loop of `remove_server_from_all_apps` keeps. */
  ghost predicate RemoveProgress(start: Files, now: Files, done: set<AppType>, id: string, c: Codec)
  {
    Touched(start, now, done) &&
    (forall a :: a in done ==> RemoveAccepted(start, a, id, c) && Withdrawn(now, a, id, c)) &&
    (forall a, x :: x != id && Listed(start, a, x, c) ==> Listed(now, a, x, c))
  }

  /** One more application cleaned keeps the progress. */
  lemma RemoveStep(start: Files, before: Files, after: Files, done: set<AppType>, a: AppType, id: string, c: Codec)
    requires RemoveProgress(start, before, done, id, c) && a !in done
    requires Touched(before, after, {a}) && RemoveAccepted(before, a, id, c) && Withdrawn(after, a, id, c)
    requires forall x :: x != id && Listed(before, a, x, c) ==> Listed(after, a, x, c)
    ensures RemoveProgress(start, after, done + {a}, id, c)
  {
    UntouchedApp(start, before, done, a, c);
    forall b | b in done
      ensures Withdrawn(after, b, id, c)
    {
      UntouchedApp(before, after, {a}, b, c);
    }
    forall b, x | x != id && Listed(start, b, x, c)
      ensures Listed(after, b, x, c)
    {
      if b != a {
        UntouchedApp(before, after, {a}, b, c);
      }
    }
    TouchedThen(start, before, after, done, {a});
  }

  /** One turn of the loop of `sync_server_to_apps`. */
  method SyncOneMore(fs: FileSystem, server: McpServer, a: AppType, c: Codec, ghost start: Files, ghost done: set<AppType>)
    returns (r: Result<()>)
    requires RendersFaithfully(c)
    requires SyncProgress(start, fs.files, done, server.id, server.server, c) && a !in done
    modifies fs
    ensures r.Ok? ==> SyncProgress(start, fs.files, done + {a}, server.id, server.server, c)
    ensures r.Err? ==> Touched(start, fs.files, done) && !SyncAccepted(start, a, server.id, server.server, c)
  {
    ghost var before := fs.files;
    UntouchedApp(start, before, done, a, c);
    r := SyncServerToApp(fs, server, a, c);
    if r.Ok? {
      SyncStep(start, before, fs.files, done, a, server.id, server.server, c);
    }
  }

  /**
   * `sync_server_to_apps`: the server is written to each application it is
   * enabled for, in declaration order, stopping at the first failure (earlier
   * writes stay). It succeeds exactly when every one of those writes is
   * accepted, and then every one of those live maps holds it.
   */
  method SyncServerToApps(fs: FileSystem, server: McpServer, c: Codec) returns (r: Result<()>)
    requires RendersFaithfully(c)
    modifies fs
    ensures Touched(old(fs.files), fs.files, AppSet(server.apps))
    ensures r.Ok? <==> forall a :: server.apps.Get(a) ==> SyncAccepted(old(fs.files), a, server.id, server.server, c)
    ensures r.Ok? ==> forall a :: server.apps.Get(a) ==> Projected(fs.files, a, server.id, server.server, c)
    ensures r.Ok? ==> forall a, id :: Listed(old(fs.files), a, id, c) ==> Listed(fs.files, a, id, c)
  {
    var apps := server.apps.EnabledApps();
    ghost var start := fs.files;
    ghost var done: set<AppType> := {};
    for i := 0 to |apps|
      invariant done <= AppSet(server.apps)
      invariant forall j :: 0 <= j < i ==> apps[j] in done
      invariant forall j :: i <= j < |apps| ==> apps[j] !in done
      invariant SyncProgress(start, fs.files, done, server.id, server.server, c)
    {
      var a := apps[i];
      r := SyncOneMore(fs, server, a, c, start, done);
      if r.Err? {
        TouchedMore(start, fs.files, done, AppSet(server.apps));
        return;
      }
      done := done + {a};
    }
    TouchedMore(start, fs.files, done, AppSet(server.apps));
    r := Ok(());
  }

  /** One turn of the loop of `remove_server_from_all_apps`. */
  method RemoveOneMore(fs: FileSystem, id: string, a: AppType, c: Codec, ghost start: Files, ghost done: set<AppType>)
    returns (r: Result<()>)
    requires RendersFaithfully(c)
    requires RemoveProgress(start, fs.files, done, id, c) && a !in done
    modifies fs
    ensures r.Ok? ==> RemoveProgress(start, fs.files, done + {a}, id, c)
    ensures r.Err? ==> Touched(start, fs.files, done) && !RemoveAccepted(start, a, id, c)
  {
    ghost var before := fs.files;
    UntouchedApp(start, before, done, a, c);
    r := RemoveServerFromApp(fs, id, a, c);
    if r.Ok? {
      RemoveStep(start, before, fs.files, done, a, id, c);
    }
  }

  /**
   * `remove_server_from_all_apps`: `id` is removed from each application the
   * server is enabled for, stopping at the first failure. It succeeds exactly
   * when every one of those removals is accepted, and then none of those live
   * maps has `id`.
   */
  method RemoveServerFromAllApps(fs: FileSystem, id: string, server: McpServer, c: Codec) returns (r: Result<()>)
    requires RendersFaithfully(c)
    modifies fs
    ensures Touched(old(fs.files), fs.files, AppSet(server.apps))
    ensures r.Ok? <==> forall a :: server.apps.Get(a) ==> RemoveAccepted(old(fs.files), a, id, c)
    ensures r.Ok? ==> forall a :: server.apps.Get(a) ==> Withdrawn(fs.files, a, id, c)
    ensures r.Ok? ==> forall a, other :: other != id && Listed(old(fs.files), a, other, c) ==> Listed(fs.files, a, other, c)
  {
    var apps := server.apps.EnabledApps();
    ghost var start := fs.files;
    ghost var done: set<AppType> := {};
    for i := 0 to |apps|
      invariant done <= AppSet(server.apps)
      invariant forall j :: 0 <= j < i ==> apps[j] in done
      invariant forall j :: i <= j < |apps| ==> apps[j] !in done
      invariant RemoveProgress(start, fs.files, done, id, c)
    {
      var a := apps[i];
      r := RemoveOneMore(fs, id, a, c, start, done);
      if r.Err? {
        TouchedMore(start, fs.files, done, AppSet(server.apps));
        return;
      }
      done := done + {a};
    }
    TouchedMore(start, fs.files, done, AppSet(server.apps));
    r := Ok(());
  }

  // ---------------------------------------------------------------------------
  // The service operations
  // ---------------------------------------------------------------------------

  /** An entry with `app`'s projection also has `app`'s listing. */
  lemma ProjectedListed(f: Files, app: AppType, id: string, spec: Json, c: Codec)
    requires Projected(f, app, id, spec, c)
    ensures Listed(f, app, id, c)
  {
  }

  /** `shift_remove(id)` on the ordered list of all servers: the server with that id, if any. */
  function FindServer(all: seq<McpServer>, id: string): Option<McpServer>
  {
    FindFirst(all, ServerId, id)
  }

  function ServerId(s: McpServer): string
  {
    s.id
  }

  /** In the list `get_all_mcp_servers` returns, the server with `id` is the stored one. */
  lemma FindStored(db: Database, all: seq<McpServer>, id: string)
    requires forall id :: (exists i :: 0 <= i < |all| && all[i].id == id) <==> id in db.mcpServers
    requires forall i :: 0 <= i < |all| ==> db.McpOf(all[i].id) == Some(all[i])
    ensures FindServer(all, id) == db.McpOf(id)
  {
    var r := FindServer(all, id);
    if r.Some? {
      var i :| 0 <= i < |all| && all[i] == r.value;
      assert db.McpOf(all[i].id) == Some(all[i]);
    } else {
      assert !(exists i :: 0 <= i < |all| && all[i].id == id);
    }
  }

  /**
   * `upsert_server`: the row is written first, then the server is synced to
   * every application it is enabled for. The stored row stays even when a sync
   * fails.
   */
  method UpsertServer(db: Database, fs: FileSystem, server: McpServer, c: Codec) returns (r: Result<()>)
    requires RendersFaithfully(c)
    modifies db, fs
    ensures db.OnlyMcpTable() && db.mcpServers == old(db.mcpServers)[server.id := McpRowOf(server)]
    ensures db.McpOf(server.id) == Some(server)
    ensures Touched(old(fs.files), fs.files, AppSet(server.apps))
    ensures r.Ok? <==> forall a :: server.apps.Get(a) ==> SyncAccepted(old(fs.files), a, server.id, server.server, c)
    ensures r.Ok? ==> forall a :: server.apps.Get(a) ==> Projected(fs.files, a, server.id, server.server, c)
  {
    db.SaveMcpServer(server);
    r := SyncServerToApps(fs, server, c);
  }

  /**
   * `delete_server`: an unknown id is reported as `false` and changes nothing;
   * a known one loses its row and is then removed from the live files of the
   * applications it was enabled for.
   */
  method DeleteServer(db: Database, fs: FileSystem, id: string, c: Codec) returns (r: Result<bool>)
    requires RendersFaithfully(c)
    modifies db, fs
    ensures old(db.McpOf(id)).None? ==> r == Ok(false) && db.NoTableChanged() && fs.files == old(fs.files)
    ensures old(db.McpOf(id)).Some? ==>
      var s := old(db.McpOf(id)).value;
      db.OnlyMcpTable() && db.mcpServers == old(db.mcpServers) - {id} &&
      Touched(old(fs.files), fs.files, AppSet(s.apps)) &&
      (r.Ok? <==> forall a :: s.apps.Get(a) ==> RemoveAccepted(old(fs.files), a, id, c)) &&
      (r.Ok? ==> r.value && forall a :: s.apps.Get(a) ==> Withdrawn(fs.files, a, id, c))
  {
    var all := db.GetAllMcpServers();
    FindStored(db, all, id);
    var found := FindServer(all, id);
    match found {
      case None =>
        r := Ok(false);
      case Some(server) =>
        db.DeleteMcpServer(id);
        var removed := RemoveServerFromAllApps(fs, id, server, c);
        if removed.Err? {
          r := Err(removed.error);
          return;
        }
        r := Ok(true);
    }
  }

  /** What toggling `app` to `enabled` on the stored server `s` leaves behind, with `ok` its success. */
  twostate predicate ToggledStored(db: Database, fs: FileSystem, s: McpServer, app: AppType, enabled: bool, c: Codec, ok: bool)
    reads db, fs
  {
    db.OnlyMcpTable() && db.mcpServers == old(db.mcpServers)[s.id := McpRowOf(s.(apps := s.apps.Set(app, enabled)))] &&
    Touched(old(fs.files), fs.files, {app}) &&
    (enabled ==> (ok <==> SyncAccepted(old(fs.files), app, s.id, s.server, c)) &&
                 (ok ==> Projected(fs.files, app, s.id, s.server, c))) &&
    (!enabled ==> (ok <==> RemoveAccepted(old(fs.files), app, s.id, c)) &&
                  (ok ==> Withdrawn(fs.files, app, s.id, c)))
  }

  /** What `toggle_app(id, app, enabled)` leaves behind, with `ok` its success. */
  twostate predicate Toggled(db: Database, fs: FileSystem, id: string, app: AppType, enabled: bool, c: Codec, ok: bool)
    reads db, fs
  {
    match old(db.McpOf(id))
    case None => ok && db.NoTableChanged() && fs.files == old(fs.files)
    case Some(s) => ToggledStored(db, fs, s, app, enabled, c, ok)
  }

  /** The found branch of `toggle_app`: set the flag, save, then sync to or remove from `app`. */
  method ToggleStored(db: Database, fs: FileSystem, server: McpServer, app: AppType, enabled: bool, c: Codec) returns (r: Result<()>)
    requires RendersFaithfully(c)
    modifies db, fs
    ensures ToggledStored(db, fs, server, app, enabled, c, r.Ok?)
  {
    var updated := server.(apps := server.apps.Set(app, enabled));
    db.SaveMcpServer(updated);
    if enabled {
      r := SyncServerToApp(fs, updated, app, c);
    } else {
      r := RemoveServerFromApp(fs, server.id, app, c);
    }
  }

  /**
   * `toggle_app`: an unknown id is a successful no-op; a known server gets its
   * flag for `app` set, is saved, and is then synced to or removed from that
   * one application.
   */
  method ToggleApp(db: Database, fs: FileSystem, id: string, app: AppType, enabled: bool, c: Codec) returns (r: Result<()>)
    requires RendersFaithfully(c)
    modifies db, fs
    ensures Toggled(db, fs, id, app, enabled, c, r.Ok?)
  {
    var all := db.GetAllMcpServers();
    FindStored(db, all, id);
    var found := FindServer(all, id);
    if found.Some? {
      r := ToggleStored(db, fs, found.value, app, enabled, c);
    } else {
      r := Ok(());
    }
  }

  /** `set_enabled`: `toggle_app`, reporting `true` on success. */
  method SetEnabled(db: Database, fs: FileSystem, app: AppType, id: string, enabled: bool, c: Codec) returns (r: Result<bool>)
    requires RendersFaithfully(c)
    modifies db, fs
    ensures Toggled(db, fs, id, app, enabled, c, r.Ok?)
    ensures r.Ok? ==> r.value
  {
    var t := ToggleApp(db, fs, id, app, enabled, c);
    if t.Err? {
      r := Err(t.error);
      return;
    }
    r := Ok(true);
  }

  /** `get_servers(app)`: the specs of the stored servers enabled for `app`, by id. */
  method GetServers(db: Database, app: AppType) returns (r: map<string, Json>)
    ensures forall id :: id in r <==> db.McpOf(id).Some? && db.McpOf(id).value.apps.Get(app)
    ensures forall id :: id in r ==> r[id] == db.McpOf(id).value.server
  {
    var all := db.GetAllMcpServers();
    r := map[];
    for i := 0 to |all|
      invariant forall id :: id in r <==> exists k :: 0 <= k < i && all[k].id == id && all[k].apps.Get(app)
      invariant forall id :: id in r ==> db.McpOf(id).Some? && r[id] == db.McpOf(id).value.server
    {
      if all[i].apps.Get(app) {
        r := r[all[i].id := all[i].server];
      }
    }
    forall id | db.McpOf(id).Some? && db.McpOf(id).value.apps.Get(app)
      ensures id in r
    {
      var k :| 0 <= k < |all| && all[k].id == id;
      assert db.McpOf(all[k].id) == Some(all[k]);
    }
  }

  /** Every server of `servers[..n]` is listed in the live map of each application it is enabled for. */
  ghost predicate AllListed(f: Files, servers: seq<McpServer>, n: nat, c: Codec)
    requires n <= |servers|
  {
    forall k, a :: 0 <= k < n && servers[k].apps.Get(a) ==> Listed(f, a, servers[k].id, c)
  }

  /** Every server of `servers[..n]` enabled for `app` is listed in `app`'s live map. */
  ghost predicate ListedFor(f: Files, servers: seq<McpServer>, n: nat, app: AppType, c: Codec)
    requires n <= |servers|
  {
    forall k :: 0 <= k < n && servers[k].apps.Get(app) ==> Listed(f, app, servers[k].id, c)
  }

  /** A list as `get_all_mcp_servers` returns it, fully listed, lists every stored server. */
  lemma StoredListed(db: Database, all: seq<McpServer>, f: Files, c: Codec)
    requires forall id :: (exists i :: 0 <= i < |all| && all[i].id == id) <==> id in db.mcpServers
    requires forall i :: 0 <= i < |all| ==> db.McpOf(all[i].id) == Some(all[i])
    requires AllListed(f, all, |all|, c)
    ensures forall id, a :: db.McpOf(id).Some? && db.McpOf(id).value.apps.Get(a) ==> Listed(f, a, id, c)
  {
    forall id, a | db.McpOf(id).Some? && db.McpOf(id).value.apps.Get(a)
      ensures Listed(f, a, id, c)
    {
      var k :| 0 <= k < |all| && all[k].id == id;
      assert db.McpOf(all[k].id) == Some(all[k]);
    }
  }

  /** The same, for the servers enabled for one application. */
  lemma StoredListedFor(db: Database, all: seq<McpServer>, f: Files, app: AppType, c: Codec)
    requires forall id :: (exists i :: 0 <= i < |all| && all[i].id == id) <==> id in db.mcpServers
    requires forall i :: 0 <= i < |all| ==> db.McpOf(all[i].id) == Some(all[i])
    requires ListedFor(f, all, |all|, app, c)
    ensures forall id :: db.McpOf(id).Some? && db.McpOf(id).value.apps.Get(app) ==> Listed(f, app, id, c)
  {
    forall id | db.McpOf(id).Some? && db.McpOf(id).value.apps.Get(app)
      ensures Listed(f, app, id, c)
    {
      var k :| 0 <= k < |all| && all[k].id == id;
      assert db.McpOf(all[k].id) == Some(all[k]);
    }
  }

  /** One iteration of `sync_all_enabled`: server `i` is synced to all its applications. */
  method SyncAllStep(fs: FileSystem, all: seq<McpServer>, i: nat, c: Codec, ghost start: Files) returns (r: Result<()>)
    requires RendersFaithfully(c)
    requires i < |all|
    requires Touched(start, fs.files, {Claude, Codex, Gemini, Grok, Qwen}) && AllListed(fs.files, all, i, c)
    modifies fs
    ensures Touched(start, fs.files, {Claude, Codex, Gemini, Grok, Qwen})
    ensures r.Ok? ==> AllListed(fs.files, all, i + 1, c)
  {
    ghost var before := fs.files;
    r := SyncServerToApps(fs, all[i], c);
    TouchedThen(start, before, fs.files, {Claude, Codex, Gemini, Grok, Qwen}, AppSet(all[i].apps));
    TouchedMore(start, fs.files, {Claude, Codex, Gemini, Grok, Qwen} + AppSet(all[i].apps), {Claude, Codex, Gemini, Grok, Qwen});
    if r.Ok? {
      forall k, a | 0 <= k < i + 1 && all[k].apps.Get(a)
        ensures Listed(fs.files, a, all[k].id, c)
      {
        if k == i {
          ProjectedListed(fs.files, a, all[i].id, all[i].server, c);
        }
      }
    }
  }

  /**
   * `sync_all_enabled`: every stored server is synced to its applications in
   * turn, stopping at the first failure. On success every stored server is
   * listed in each of its applications' live maps; only MCP files change.
   */
  method SyncAllEnabled(db: Database, fs: FileSystem, c: Codec) returns (r: Result<()>)
    requires RendersFaithfully(c)
    modifies fs
    ensures Touched(old(fs.files), fs.files, {Claude, Codex, Gemini, Grok, Qwen})
    ensures r.Ok? ==> forall id, a :: db.McpOf(id).Some? && db.McpOf(id).value.apps.Get(a) ==> Listed(fs.files, a, id, c)
  {
    var all := db.GetAllMcpServers();
    ghost var start := fs.files;
    for i := 0 to |all|
      invariant Touched(start, fs.files, {Claude, Codex, Gemini, Grok, Qwen})
      invariant AllListed(fs.files, all, i, c)
    {
      r := SyncAllStep(fs, all, i, c, start);
      if r.Err? {
        return;
      }
    }
    r := Ok(());
    StoredListed(db, all, fs.files, c);
  }

  /** One iteration of `sync_enabled(app)`: server `i`, when enabled for `app`, is synced to it. */
  method SyncEnabledStep(fs: FileSystem, all: seq<McpServer>, i: nat, app: AppType, c: Codec, ghost start: Files) returns (r: Result<()>)
    requires RendersFaithfully(c)
    requires i < |all|
    requires Touched(start, fs.files, {app}) && ListedFor(fs.files, all, i, app, c)
    modifies fs
    ensures Touched(start, fs.files, {app})
    ensures r.Ok? ==> ListedFor(fs.files, all, i + 1, app, c)
  {
    r := Ok(());
    if all[i].apps.Get(app) {
      ghost var before := fs.files;
      r := SyncServerToApp(fs, all[i], app, c);
      TouchedThen(start, before, fs.files, {app}, {app});
      if r.Ok? {
        ProjectedListed(fs.files, app, all[i].id, all[i].server, c);
      }
    }
  }

  /**
   * `sync_enabled(app)`: every stored server enabled for `app` is synced to
   * that one application, stopping at the first failure; on success each of
   * them is listed in `app`'s live map.
   */
  method SyncEnabled(db: Database, fs: FileSystem, app: AppType, c: Codec) returns (r: Result<()>)
    requires RendersFaithfully(c)
    modifies fs
    ensures Touched(old(fs.files), fs.files, {app})
    ensures r.Ok? ==> forall id :: db.McpOf(id).Some? && db.McpOf(id).value.apps.Get(app) ==> Listed(fs.files, app, id, c)
  {
    var all := db.GetAllMcpServers();
    ghost var start := fs.files;
    for i := 0 to |all|
      invariant Touched(start, fs.files, {app})
      invariant ListedFor(fs.files, all, i, app, c)
    {
      r := SyncEnabledStep(fs, all, i, app, c, start);
      if r.Err? {
        return;
      }
    }
    r := Ok(());
    StoredListedFor(db, all, fs.files, app, c);
  }

  // ---------------------------------------------------------------------------
  // Importing from a live file
  // ---------------------------------------------------------------------------

  /** What `mcp::import_from_claude` does to a fresh configuration. */
  function TempClaude(f: Files, valid: Json -> bool): Result<(map<string, McpServer>, nat)>
  {
    if f.claudeMcp.Unreadable? then Err(McpClaude.ParseFailed)
    else if f.claudeMcp.Absent? || ServersObject(f.claudeMcp.value).None? then Ok((map[], 0))
    else
      var specs := ServersObject(f.claudeMcp.value).value;
      Ok((ImportAll(map[], specs, Claude, valid), |CountedIds(map[], specs, Claude, valid)|))
  }

  /** What `mcp::import_from_gemini` does to a fresh configuration. */
  function TempGemini(f: Files, valid: Json -> bool): Result<(map<string, McpServer>, nat)>
  {
    if ReadServersMap(f.geminiSettings).Err? then Err(ReadServersMap(f.geminiSettings).error)
    else if ReadServersMap(f.geminiSettings).value == map[] then Ok((map[], 0))
    else
      var specs := ReadServersMap(f.geminiSettings).value;
      Ok((ImportAll(map[], specs, Gemini, valid), |CountedIds(map[], specs, Gemini, valid)|))
  }

  /** What `mcp::import_from_grok` does to a fresh configuration. */
  function TempGrok(f: Files, valid: Json -> bool): Result<(map<string, McpServer>, nat)>
  {
    if ReadMcpServersMap(f.grokSettings).Err? then Err(ReadMcpServersMap(f.grokSettings).error)
    else
      var specs := ReadMcpServersMap(f.grokSettings).value;
      Ok((ImportAll(map[], specs, Grok, valid), |CountedIds(map[], specs, Grok, valid)|))
  }

  /** What `mcp::import_from_codex` does to a fresh configuration: the legacy table first, then the current one. */
  function TempCodex(f: Files, valid: Json -> bool, parse: TomlParser): Result<(map<string, McpServer>, nat)>
  {
    var text := ReadConfigText(f.codexConfig, parse);
    if text.Err? then Err(text.error)
    else if IsBlank(text.value) then Ok((map[], 0))
    else
      Ok(ImportDoc(map[], parse(text.value).value, valid))
  }

  /**
   * What `mcp::import_from_<app>` does to a fresh `MultiAppConfig::default()`:
   * the servers it ends up with and the count it reports, or the import's
   * error when the live file cannot be read.
   */
  function TempImport(f: Files, app: AppType, valid: Json -> bool, c: Codec): Result<(map<string, McpServer>, nat)>
    requires app != Qwen
  {
    match app
    case Claude => TempClaude(f, valid)
    case Gemini => TempGemini(f, valid)
    case Grok => TempGrok(f, valid)
    case Codex => TempCodex(f, valid, c.parse)
  }

  /** Servers keyed by their own ids, each enabled for `app` alone. */
  predicate OnlyFor(servers: map<string, McpServer>, app: AppType)
  {
    forall id :: id in servers ==> servers[id].id == id && servers[id].apps == OnlyApp(app)
  }

  /** Importing into servers that all belong to `app` alone keeps them so. */
  lemma ImportOnlyFor(servers: map<string, McpServer>, specs: map<string, Json>, app: AppType, valid: Json -> bool)
    requires OnlyFor(servers, app)
    ensures OnlyFor(ImportAll(servers, specs, app, valid), app)
  {
    forall id | id in servers {
      SetEnabledAgain(servers[id].apps, app);
    }
  }

  /** A temporary import yields servers of `app` alone, keyed by id. */
  lemma TempImportOnlyFor(f: Files, app: AppType, valid: Json -> bool, c: Codec)
    requires app != Qwen && TempImport(f, app, valid, c).Ok?
    ensures OnlyFor(TempImport(f, app, valid, c).value.0, app)
  {
    match app {
      case Claude =>
        if f.claudeMcp.Present? && ServersObject(f.claudeMcp.value).Some? {
          ImportOnlyFor(map[], ServersObject(f.claudeMcp.value).value, Claude, valid);
        }
      case Gemini =>
        ImportOnlyFor(map[], ReadServersMap(f.geminiSettings).value, Gemini, valid);
      case Grok =>
        ImportOnlyFor(map[], ReadMcpServersMap(f.grokSettings).value, Grok, valid);
      case Codex =>
        var text := ReadConfigText(f.codexConfig, c.parse);
        if !IsBlank(text.value) {
          var doc := c.parse(text.value).value;
          ImportOnlyFor(map[], CodexSpecs(LegacyServers(doc)), Codex, valid);
          ImportOnlyFor(ImportAll(map[], CodexSpecs(LegacyServers(doc)), Codex, valid), CodexSpecs(CurrentServers(doc)), Codex, valid);
        }
    }
  }

  method ImportTempClaude(fs: FileSystem, valid: Json -> bool) returns (r: Result<(map<string, McpServer>, nat)>)
    ensures r == TempClaude(fs.files, valid)
  {
    var out, count := McpClaude.ImportFromClaude(fs, DefaultMcpConfig, valid);
    r := if count.Err? then Err(count.error) else Ok((out.Servers(), count.value));
  }

  method ImportTempGemini(fs: FileSystem, valid: Json -> bool) returns (r: Result<(map<string, McpServer>, nat)>)
    ensures r == TempGemini(fs.files, valid)
  {
    var out, count := McpGemini.ImportFromGemini(fs, DefaultMcpConfig, valid);
    r := if count.Err? then Err(count.error) else Ok((out.Servers(), count.value));
  }

  method ImportTempGrok(fs: FileSystem, valid: Json -> bool) returns (r: Result<(map<string, McpServer>, nat)>)
    ensures r == TempGrok(fs.files, valid)
  {
    var out, count := McpGrok.ImportFromGrok(fs, DefaultMcpConfig, valid);
    r := if count.Err? then Err(count.error) else Ok((out.Servers(), count.value));
  }

  method ImportTempCodex(fs: FileSystem, valid: Json -> bool, parse: TomlParser) returns (r: Result<(map<string, McpServer>, nat)>)
    ensures r == TempCodex(fs.files, valid, parse)
  {
    var out, count := ImportFromCodex(fs, DefaultMcpConfig, parse, valid);
    r := if count.Err? then Err(count.error) else Ok((out.Servers(), count.value));
  }

  /** `mcp::import_from_<app>(&mut temp_config)` on a fresh configuration. */
  method ImportTemp(fs: FileSystem, app: AppType, valid: Json -> bool, c: Codec) returns (r: Result<(map<string, McpServer>, nat)>)
    requires app != Qwen
    ensures r == TempImport(fs.files, app, valid, c)
  {
    match app {
      case Claude => r := ImportTempClaude(fs, valid);
      case Gemini => r := ImportTempGemini(fs, valid);
      case Grok => r := ImportTempGrok(fs, valid);
      case Codex => r := ImportTempCodex(fs, valid, c.parse);
    }
  }

  /** The stored servers, as `get_all_mcp_servers` reads them, by id. */
  function StoredMcp(rows: map<string, McpRow>): (m: map<string, McpServer>)
    ensures m.Keys == rows.Keys
    ensures forall id :: id in m ==> m[id] == ReadMcp(id, rows[id])
  {
    map id | id in rows :: ReadMcp(id, rows[id])
  }

  /** The servers of `target` are listed in their applications' live maps, for the ids in `done`. */
  ghost predicate SavedListed(f: Files, target: map<string, McpServer>, done: set<string>, c: Codec)
  {
    forall id, a :: id in done && id in target && target[id].apps.Get(a) ==> Listed(f, a, id, c)
  }

  /** The files after saving the ids `done` of `target`: only `apps` touched, each saved server listed. */
  ghost predicate SaveProgress(start: Files, now: Files, target: map<string, McpServer>, done: set<string>,
                               apps: set<AppType>, c: Codec)
  {
    Touched(start, now, apps) && SavedListed(now, target, done, c)
  }

  /** After a successful sync of `target[id]` that kept every listing, one more id of `target` is listed. */
  lemma SavedListedStep(before: Files, after: Files, target: map<string, McpServer>, done: set<string>, id: string, c: Codec)
    requires id in target && SavedListed(before, target, done, c)
    requires forall a, other :: Listed(before, a, other, c) ==> Listed(after, a, other, c)
    requires forall a :: target[id].apps.Get(a) ==> Projected(after, a, id, target[id].server, c)
    ensures SavedListed(after, target, done + {id}, c)
  {
    forall k, a | k in done + {id} && k in target && target[k].apps.Get(a)
      ensures Listed(after, a, k, c)
    {
      if k == id {
        ProjectedListed(after, a, id, target[id].server, c);
      }
    }
  }

  /** One iteration of the import's save loop: `save_mcp_server(server)`, then `sync_server_to_apps(server)`. */
  method SaveOneMore(db: Database, fs: FileSystem, target: map<string, McpServer>, id: string, c: Codec,
                     ghost rows: map<string, McpRow>, ghost base: map<string, McpRow>, ghost done: set<string>,
                     ghost start: Files, ghost apps: set<AppType>)
    returns (r: Result<()>)
    requires RendersFaithfully(c)
    requires id in target && target[id].id == id && AppSet(target[id].apps) <= apps
    requires rows == MapValues(target, McpRowOf)
    requires db.mcpServers == base + Restrict(rows, done)
    requires SaveProgress(start, fs.files, target, done, apps, c)
    modifies db, fs
    ensures db.OnlyMcpTable() && db.mcpServers == base + Restrict(rows, done + {id})
    ensures Touched(start, fs.files, apps)
    ensures r.Ok? ==> SaveProgress(start, fs.files, target, done + {id}, apps, c)
  {
    db.SaveMcpServer(target[id]);
    RestrictStep(base, rows, done, id);
    ghost var before := fs.files;
    r := SyncServerToApps(fs, target[id], c);
    TouchedThen(start, before, fs.files, apps, AppSet(target[id].apps));
    TouchedMore(start, fs.files, apps + AppSet(target[id].apps), apps);
    if r.Ok? {
      SavedListedStep(before, fs.files, target, done, id, c);
    }
  }

  /**
   * The save loop of `import_from_<app>`: each server of `target` is saved,
   * replacing any stored row with its id, and synced to its applications,
   * stopping at the first failure. On success the table holds `target`'s rows
   * over the old ones and each server is listed in its applications' maps.
   */
  method SaveAndSync(db: Database, fs: FileSystem, target: map<string, McpServer>, c: Codec, ghost apps: set<AppType>)
    returns (r: Result<()>)
    requires RendersFaithfully(c)
    requires forall id :: id in target ==> target[id].id == id && AppSet(target[id].apps) <= apps
    modifies db, fs
    ensures db.OnlyMcpTable()
    ensures Touched(old(fs.files), fs.files, apps)
    ensures r.Ok? ==> db.mcpServers == old(db.mcpServers) + MapValues(target, McpRowOf)
    ensures r.Ok? ==> forall id, a :: id in target && target[id].apps.Get(a) ==> Listed(fs.files, a, id, c)
  {
    ghost var rows := MapValues(target, McpRowOf);
    ghost var base := db.mcpServers;
    ghost var start := fs.files;
    var rest := target.Keys;
    RestrictNone(base, rows);
    assert target.Keys - rest == {};
    while rest != {}
      invariant rest <= target.Keys
      invariant db.OnlyMcpTable() && db.mcpServers == base + Restrict(rows, target.Keys - rest)
      invariant SaveProgress(start, fs.files, target, target.Keys - rest, apps, c)
      decreases rest
    {
      var id :| id in rest;
      r := SaveOneMore(db, fs, target, id, c, rows, base, target.Keys - rest, start, apps);
      if r.Err? {
        return;
      }
      assert target.Keys - (rest - {id}) == (target.Keys - rest) + {id};
      rest := rest - {id};
    }
    assert target.Keys - rest == target.Keys;
    RestrictAll(rows);
    r := Ok(());
  }

  /**
   * `import_from_<app>` as written: the live file is imported into a fresh,
   * empty configuration, and when the count is positive every server of it is
   * saved over the stored row with its id and synced. A stored server the live
   * file also lists is replaced by the import's record of it.
   */
  method ImportFromAppAsWritten(db: Database, fs: FileSystem, app: AppType, valid: Json -> bool, c: Codec)
    returns (r: Result<nat>)
    requires app != Qwen && RendersFaithfully(c)
    modifies db, fs
    ensures db.OnlyMcpTable() && Touched(old(fs.files), fs.files, {app})
    ensures TempImport(old(fs.files), app, valid, c).Err? ==>
      r == Err(TempImport(old(fs.files), app, valid, c).error) && db.NoTableChanged() && fs.files == old(fs.files)
    ensures r.Ok? ==> (TempImport(old(fs.files), app, valid, c).Ok? &&
      var (imported, count) := TempImport(old(fs.files), app, valid, c).value;
      r.value == count &&
      db.mcpServers == old(db.mcpServers) + (if count > 0 then MapValues(imported, McpRowOf) else map[]) &&
      (count > 0 ==> forall id :: id in imported ==> Listed(fs.files, app, id, c)))
  {
    var temp := ImportTemp(fs, app, valid, c);
    if temp.Err? {
      return Err(temp.error);
    }
    var (imported, count) := temp.value;
    if count > 0 {
      TempImportOnlyFor(fs.files, app, valid, c);
      var saved := SaveAndSync(db, fs, imported, c, {app});
      if saved.Err? {
        return Err(saved.error);
      }
    }
    r := Ok(count);
  }

  /** Every application. */
  const AllApps: set<AppType> := {Claude, Codex, Gemini, Grok, Qwen}

  lemma EveryApp(apps: set<AppType>)
    ensures apps <= AllApps
  {
    forall a | a in apps
      ensures a in AllApps
    {
      match a
      case Claude =>
      case Codex =>
      case Gemini =>
      case Grok =>
      case Qwen =>
    }
  }

  /**
   * The imported servers merged with the stored ones: a server already stored
   * keeps its name, spec and metadata and gains the imported flags; a new one
   * is taken as imported.
   */
  function Merged(stored: map<string, McpServer>, imported: map<string, McpServer>): (m: map<string, McpServer>)
    ensures m.Keys == imported.Keys
    ensures forall id :: id in m && id !in stored ==> m[id] == imported[id]
    ensures forall id :: id in m && id in stored ==>
      m[id].(apps := stored[id].apps) == stored[id] &&
      forall a :: m[id].apps.Get(a) == (stored[id].apps.Get(a) || imported[id].apps.Get(a))
  {
    map id | id in imported :: if id in stored then stored[id].(apps := stored[id].apps.Or(imported[id].apps)) else imported[id]
  }

  /** Adding the one flag of `OnlyApp(app)` is enabling `app`. */
  lemma OrOnlyApp(a: McpApps, app: AppType)
    ensures a.Or(OnlyApp(app)) == a.Set(app, true)
  {
  }

  /**
   * Merging a fresh import into the stored servers is what importing into the
   * stored servers does, restricted to the imported ids: the merge restores the
   * behaviour the per-application importers are written for.
   */
  lemma MergedIsImport(stored: map<string, McpServer>, specs: map<string, Json>, app: AppType, valid: Json -> bool)
    ensures Merged(stored, ImportAll(map[], specs, app, valid)) == Restrict(ImportAll(stored, specs, app, valid), ValidIds(specs, valid))
  {
    var once := ImportAll(map[], specs, app, valid);
    var left := Merged(stored, once);
    var right := Restrict(ImportAll(stored, specs, app, valid), ValidIds(specs, valid));
    assert left.Keys == right.Keys;
    forall id | id in left
      ensures left[id] == right[id]
    {
      if id in stored {
        OrOnlyApp(stored[id].apps, app);
      }
    }
  }

  /**
   * `import_from_<app>` corrected: each imported server is merged with the
   * stored server of its id before it is saved and synced, so a stored
   * server keeps its name, spec, metadata and other flags.
   */
  method ImportFromApp(db: Database, fs: FileSystem, app: AppType, valid: Json -> bool, c: Codec)
    returns (r: Result<nat>)
    requires app != Qwen && RendersFaithfully(c)
    modifies db, fs
    ensures db.OnlyMcpTable() && Touched(old(fs.files), fs.files, AllApps)
    ensures TempImport(old(fs.files), app, valid, c).Err? ==>
      r == Err(TempImport(old(fs.files), app, valid, c).error) && db.NoTableChanged() && fs.files == old(fs.files)
    ensures r.Ok? ==> (TempImport(old(fs.files), app, valid, c).Ok? &&
      var (imported, count) := TempImport(old(fs.files), app, valid, c).value;
      r.value == count &&
      db.mcpServers == old(db.mcpServers) +
        (if count > 0 then MapValues(Merged(StoredMcp(old(db.mcpServers)), imported), McpRowOf) else map[]) &&
      (count > 0 ==> forall id :: id in imported ==> Listed(fs.files, app, id, c)))
  {
    var temp := ImportTemp(fs, app, valid, c);
    if temp.Err? {
      return Err(temp.error);
    }
    var (imported, count) := temp.value;
    if count > 0 {
      TempImportOnlyFor(fs.files, app, valid, c);
      var target := Merged(StoredMcp(db.mcpServers), imported);
      forall id | id in target
        ensures target[id].id == id && AppSet(target[id].apps) <= AllApps
      {
        EveryApp(AppSet(target[id].apps));
      }
      var saved := SaveAndSync(db, fs, target, c, AllApps);
      if saved.Err? {
        return Err(saved.error);
      }
    } else {
      TouchedMore(old(fs.files), fs.files, {}, AllApps);
    }
    r := Ok(count);
  }

  /**
   * The import as written forgets what was stored: a server enabled for Codex
   * under the name "Web search" that Claude's file also lists comes out of an
   * import from Claude enabled for Claude alone and named by its id. The
   * corrected import keeps both flags and the name.
   */
  lemma ImportOverwritesStored(spec: Json, valid: Json -> bool)
    requires valid(spec)
    ensures
      var s := McpServer("search", "Web search", spec, OnlyApp(Codex), None, None, None, []);
      var stored := map["search" := McpRowOf(s)];
      var imported := ImportAll(map[], map["search" := spec], Claude, valid);
      var asWritten := (stored + MapValues(imported, McpRowOf))["search"];
      var corrected := (stored + MapValues(Merged(StoredMcp(stored), imported), McpRowOf))["search"];
      !asWritten.apps.Get(Codex) && asWritten.name == "search" &&
      corrected.apps.Get(Codex) && corrected.apps.Get(Claude) && corrected.name == "Web search"
  {
    var s := McpServer("search", "Web search", spec, OnlyApp(Codex), None, None, None, []);
    var stored := map["search" := McpRowOf(s)];
    var imported := ImportAll(map[], map["search" := spec], Claude, valid);
    assert imported["search"] == Imported("search", spec, Claude);
    McpRoundTrip(s);
    assert StoredMcp(stored)["search"] == s;
  }
}
