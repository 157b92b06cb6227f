/**
 * The provider service (services/provider/mod.rs and the rest of
 * services/provider/live.rs): adding, updating, deleting and switching
 * providers across the store, the device settings and the live files, the
 * sort order, the first-run import of the live configuration, and the
 * re-sync of every application's live files. Each step that can fail stops
 * the operation; nothing already done is rolled back.
 */
module ProviderService {
  import opened Wrappers
  import opened Values
  import opened Providers
  import opened LiveFiles
  import opened Store
  import opened Settings
  import ClaudeModels
  import opened ProviderLive
  import McpService

  // ---------------------------------------------------------------------------
  // Preparing a provider
  // ---------------------------------------------------------------------------

  /** The provider as it is validated and saved: a Claude provider's model keys are normalised. */
  function Prepared(app: AppType, p: Provider): Provider
  {
    if app == Claude then p.(settingsConfig := ClaudeModels.Normalized(p.settingsConfig)) else p
  }

  /** `normalize_provider_if_claude` */
  method NormalizeProviderIfClaude(app: AppType, p: Provider) returns (q: Provider)
    ensures q == Prepared(app, p)
    ensures q.id == p.id
  {
    q := p;
    if app == Claude {
      var v, changed := ClaudeModels.NormalizeClaudeModelsInValue(p.settingsConfig);
      if changed {
        q := q.(settingsConfig := v);
      }
    }
  }

  /** Preparing a prepared provider changes nothing, so saving it again leaves it as it is. */
  lemma PreparedIdempotent(app: AppType, p: Provider)
    ensures Prepared(app, Prepared(app, p)) == Prepared(app, p)
  {
    ClaudeModels.NormalizedIdempotent(p.settingsConfig);
  }

  // ---------------------------------------------------------------------------
  // The effective current provider
  // ---------------------------------------------------------------------------

  /**
   * The providers `get_effective_current_provider` may answer with: the local
   * choice when the store holds it, otherwise those the store flags current.
   */
  function Candidates(local: Option<string>, appIds: set<string>, currentIds: set<string>): (c: set<string>)
    ensures c <= appIds + currentIds
    ensures local.Some? && local.value in appIds ==> c == {local.value}
  {
    if local.Some? && local.value in appIds then {local.value} else currentIds
  }

  /** The candidates of `app` in the given state of the settings and the store. */
  ghost function CandidatesOf(settings: SettingsStore, db: Database, app: AppType): set<string>
    reads settings, db
  {
    Candidates(settings.GetCurrentProvider(app), db.AppIds(AppName(app)), db.CurrentIds(AppName(app)))
  }

  /** `ProviderService::current`: the effective current id, or the empty string when there is none. */
  method Current(db: Database, settings: SettingsStore, app: AppType, clearFails: bool) returns (r: string)
    requires settings.Valid()
    modifies settings
    ensures settings.Valid()
    ensures r != [] ==> r in old(CandidatesOf(settings, db, app))
    ensures r == [] ==> old(CandidatesOf(settings, db, app)) == {} || "" in old(CandidatesOf(settings, db, app))
  {
    var e := settings.GetEffectiveCurrentProvider(db, app, clearFails);
    r := e.UnwrapOr("");
  }

  /**
   * `get_effective_current_provider(app) == Some(id)`. The lookup may clear a
   * stale local choice of `app`, and of no other application.
   */
  method IsEffectiveCurrent(db: Database, settings: SettingsStore, app: AppType, id: string, clearFails: bool)
    returns (b: bool)
    requires settings.Valid()
    modifies settings
    ensures settings.Valid()
    ensures b ==> id in old(CandidatesOf(settings, db, app))
    ensures old(CandidatesOf(settings, db, app)) == {id} ==> b
    ensures forall other :: other != app ==> settings.GetCurrentProvider(other) == old(settings.GetCurrentProvider(other))
  {
    var effective := EffectiveCurrent(db, settings, app, clearFails);
    b := effective == Some(id);
  }

  /** `get_effective_current_provider(app)`, one of the candidates, and the only one when there is one. */
  method EffectiveCurrent(db: Database, settings: SettingsStore, app: AppType, clearFails: bool)
    returns (e: Option<string>)
    requires settings.Valid()
    modifies settings
    ensures settings.Valid()
    ensures e.Some? ==> e.value in old(CandidatesOf(settings, db, app))
    ensures e.None? ==> old(CandidatesOf(settings, db, app)) == {}
    ensures e.Some? ==> e.value in db.AppIds(AppName(app))
    ensures forall other :: other != app ==> settings.GetCurrentProvider(other) == old(settings.GetCurrentProvider(other))
  {
    e := settings.GetEffectiveCurrentProvider(db, app, clearFails);
  }

  // ---------------------------------------------------------------------------
  // add, update, delete
  // ---------------------------------------------------------------------------

  /** The row a saved provider ends up in, whatever its current flag. */
  ghost predicate SavedAs(db: Database, app: AppType, p: Provider)
    reads db
  {
    (AppName(app), p.id) in db.providers &&
    db.providers[(AppName(app), p.id)] == RowOf(p, db.providers[(AppName(app), p.id)].isCurrent)
  }

  /** The endpoint rows after saving `p`: new rows only for a provider that was not stored. */
  function EndpointsAfterSave(rows: set<EndpointRow>, stored: bool, app: AppType, p: Provider): set<EndpointRow>
  {
    if stored then rows else rows + NewEndpointRows(AppName(app), p)
  }

  /** Saving keeps the set of current providers: an existing row keeps its flag, a new one is not current. */
  method SaveKeepingCurrent(db: Database, app: AppType, p: Provider)
    requires db.Valid()
    modifies db
    ensures db.Valid() && db.OnlyProviderTables() && SavedAs(db, app, p)
    ensures db.providers.Keys == old(db.providers).Keys + {(AppName(app), p.id)}
    ensures forall k :: k in old(db.providers) && k != (AppName(app), p.id) ==> db.providers[k] == old(db.providers)[k]
    ensures db.endpoints == EndpointsAfterSave(old(db.endpoints), (AppName(app), p.id) in old(db.providers), app, p)
    ensures forall a :: db.CurrentIds(a) == old(db.CurrentIds(a))
    ensures (AppName(app), p.id) in old(db.providers) ==>
      db.providers[(AppName(app), p.id)].isCurrent == old(db.providers)[(AppName(app), p.id)].isCurrent
  {
    db.SaveProvider(AppName(app), p);
    forall a
      ensures db.CurrentIds(a) == old(db.CurrentIds(a))
    {
      forall id
        ensures id in db.CurrentIds(a) <==> id in old(db.CurrentIds(a))
      {
      }
    }
  }

  /**
   * `ProviderService::add`: the prepared provider is validated (an invalid one
   * changes nothing) and saved; when the application has no current provider
   * yet it becomes the current one and its live files are written.
   */
  method Add(db: Database, fs: FileSystem, app: AppType, p: Provider, c: McpService.Codec, gem: GeminiHooks)
    returns (r: Result<bool>)
    requires db.Valid()
    modifies db, fs
    ensures db.Valid() && db.OnlyProviderTables()
    ensures ValidateProviderSettings(app, Prepared(app, p), c.parse, gem).Err? ==>
      r == Err(ValidateProviderSettings(app, Prepared(app, p), c.parse, gem).error) &&
      db.NoTableChanged() && fs.files == old(fs.files)
    ensures ValidateProviderSettings(app, Prepared(app, p), c.parse, gem).Ok? ==>
      SavedAs(db, app, Prepared(app, p)) &&
      db.providers.Keys == old(db.providers).Keys + {(AppName(app), p.id)} &&
      db.endpoints == EndpointsAfterSave(old(db.endpoints), (AppName(app), p.id) in old(db.providers), app, Prepared(app, p))
    ensures ValidateProviderSettings(app, Prepared(app, p), c.parse, gem).Ok? && old(db.CurrentIds(AppName(app))) != {} ==>
      r == Ok(true) && fs.files == old(fs.files) && db.CurrentIds(AppName(app)) == old(db.CurrentIds(AppName(app)))
    ensures ValidateProviderSettings(app, Prepared(app, p), c.parse, gem).Ok? && old(db.CurrentIds(AppName(app))) == {} ==>
      db.CurrentIds(AppName(app)) == {p.id} &&
      (r.Ok? <==> Snapshot(app, Prepared(app, p), old(fs.files), gem).Ok?) &&
      (r.Ok? ==> r.value && fs.files == Snapshot(app, Prepared(app, p), old(fs.files), gem).value) &&
      (r.Err? ==> fs.files == AfterFailedSnapshot(app, Prepared(app, p), old(fs.files), gem))
  {
    var q := NormalizeProviderIfClaude(app, p);
    var valid := ValidateProviderSettings(app, q, c.parse, gem);
    if valid.Err? {
      return Err(valid.error);
    }
    SaveKeepingCurrent(db, app, q);
    var current := db.GetCurrentProvider(AppName(app));
    if current.None? {
      r := AddAsCurrent(db, fs, app, q, gem);
      return;
    }
    r := Ok(true);
  }

  /**
   * The tail of `add` for an application without a current provider: the saved
   * provider becomes current and its live snapshot is written.
   */
  method AddAsCurrent(db: Database, fs: FileSystem, app: AppType, q: Provider, gem: GeminiHooks)
    returns (r: Result<bool>)
    requires db.Valid() && SavedAs(db, app, q)
    modifies db, fs
    ensures db.Valid() && db.OnlyProviderTables() && SavedAs(db, app, q)
    ensures db.providers.Keys == old(db.providers).Keys && db.endpoints == old(db.endpoints)
    ensures db.CurrentIds(AppName(app)) == {q.id}
    ensures r.Ok? <==> Snapshot(app, q, old(fs.files), gem).Ok?
    ensures r.Ok? ==> r.value && fs.files == Snapshot(app, q, old(fs.files), gem).value
    ensures r.Err? ==> fs.files == AfterFailedSnapshot(app, q, old(fs.files), gem)
  {
    MoveCurrent(db, app, q.id);
    var w := WriteLiveSnapshot(fs, app, q, gem);
    if w.Err? {
      return Err(w.error);
    }
    r := Ok(true);
  }

  /** The message `ProviderService::delete` refuses a provider in use with. */
  const InUseMessage: string := "无法删除当前正在使用的供应商"

  /**
   * `ProviderService::delete`: a provider that is this device's choice, or that
   * the store's current query returns, is refused and nothing changes;
   * otherwise its row and its endpoint rows are deleted.
   */
  method Delete(db: Database, settings: SettingsStore, app: AppType, id: string) returns (r: Result<()>)
    requires db.Valid()
    modifies db
    ensures db.Valid() && db.OnlyProviderTables()
    ensures settings.GetCurrentProvider(app) == Some(id) || old(db.CurrentIds(AppName(app))) == {id} ==>
      r == Err(Message(InUseMessage))
    ensures settings.GetCurrentProvider(app) != Some(id) && id !in old(db.CurrentIds(AppName(app))) ==> r.Ok?
    ensures r.Err? ==> r == Err(Message(InUseMessage)) && db.NoTableChanged()
    ensures r.Ok? ==>
      db.providers == old(db.providers) - {(AppName(app), id)} &&
      db.endpoints == old(db.endpoints) - RowsOf(old(db.endpoints), AppName(app), id)
  {
    var local := settings.GetCurrentProvider(app);
    var dbCurrent := db.GetCurrentProvider(AppName(app));
    if local == Some(id) || dbCurrent == Some(id) {
      return Err(Message(InUseMessage));
    }
    db.DeleteProvider(AppName(app), id);
    r := Ok(());
  }

  /**
   * `ProviderService::update`: the prepared provider is validated (an invalid
   * one changes nothing) and saved; when it is the effective current provider
   * its live files are rewritten and every MCP server is synced. Looking up
   * the effective current provider may clear a stale local choice
   * (`clearFails` is whether that write fails).
   */
  method Update(db: Database, settings: SettingsStore, fs: FileSystem, app: AppType, p: Provider,
                c: McpService.Codec, gem: GeminiHooks, clearFails: bool)
    returns (r: Result<bool>)
    requires db.Valid() && settings.Valid() && McpService.RendersFaithfully(c)
    modifies db, settings, fs
    ensures db.Valid() && settings.Valid() && db.OnlyProviderTables()
    ensures ValidateProviderSettings(app, Prepared(app, p), c.parse, gem).Err? ==>
      r == Err(ValidateProviderSettings(app, Prepared(app, p), c.parse, gem).error) &&
      db.NoTableChanged() && fs.files == old(fs.files) && settings.cache == old(settings.cache)
    ensures ValidateProviderSettings(app, Prepared(app, p), c.parse, gem).Ok? ==>
      SavedAs(db, app, Prepared(app, p)) &&
      db.providers.Keys == old(db.providers).Keys + {(AppName(app), p.id)} &&
      db.endpoints == EndpointsAfterSave(old(db.endpoints), (AppName(app), p.id) in old(db.providers), app, Prepared(app, p)) &&
      (forall a :: db.CurrentIds(a) == old(db.CurrentIds(a)))
    ensures p.id !in old(CandidatesOf(settings, db, app)) ==> fs.files == old(fs.files)
    ensures ValidateProviderSettings(app, Prepared(app, p), c.parse, gem).Ok? && old(CandidatesOf(settings, db, app)) == {p.id} ==>
      (Snapshot(app, Prepared(app, p), old(fs.files), gem).Err? ==>
        r.Err? && fs.files == AfterFailedSnapshot(app, Prepared(app, p), old(fs.files), gem)) &&
      (r.Ok? ==> LiveSynced(db, old(fs.files), fs.files, app, Prepared(app, p), c, gem))
    ensures forall other :: other != app ==> settings.GetCurrentProvider(other) == old(settings.GetCurrentProvider(other))
  {
    var q := NormalizeProviderIfClaude(app, p);
    var valid := ValidateProviderSettings(app, q, c.parse, gem);
    if valid.Err? {
      return Err(valid.error);
    }
    var isCurrent := IsEffectiveCurrent(db, settings, app, q.id, clearFails);
    SaveKeepingCurrent(db, app, q);
    if isCurrent {
      var w := WriteLiveAndSync(db, fs, app, q, c, gem);
      if w.Err? {
        return Err(w.error);
      }
    }
    r := Ok(true);
  }

  /**
   * The files after the live write and the MCP sync of a switch, whatever its
   * outcome, with nothing rolled back: a failing snapshot leaves what it wrote
   * (and fails the switch); otherwise the snapshot stays and only the MCP files
   * change after it.
   */
  predicate AfterLiveWrite(before: Files, after: Files, r: Result<()>, app: AppType, p: Provider, gem: GeminiHooks)
  {
    (Snapshot(app, p, before, gem).Err? ==> r.Err? && after == AfterFailedSnapshot(app, p, before, gem)) &&
    (Snapshot(app, p, before, gem).Ok? ==> McpService.Touched(Snapshot(app, p, before, gem).value, after, McpService.AllApps))
  }

  /**
   * After the live files of `app` were written from `p` over `before` and the
   * MCP servers were synced: the provider's own files are as the snapshot wrote
   * them (MCP sync touches the MCP files only), and every stored server is
   * listed by each application it is enabled for.
   */
  ghost predicate LiveSynced(db: Database, before: Files, after: Files, app: AppType, p: Provider,
                             c: McpService.Codec, gem: GeminiHooks)
    reads db
  {
    Snapshot(app, p, before, gem).Ok? &&
    McpService.Touched(Snapshot(app, p, before, gem).value, after, McpService.AllApps) &&
    forall id, a :: db.McpOf(id).Some? && db.McpOf(id).value.apps.Get(a) ==> McpService.Listed(after, a, id, c)
  }

  /**
   * `write_live_snapshot(app, p)` followed by `McpService::sync_all_enabled`.
   * Nothing is rolled back: a failing snapshot leaves what it wrote, and a
   * failing sync leaves the snapshot and the MCP files synced before it.
   */
  method WriteLiveAndSync(db: Database, fs: FileSystem, app: AppType, p: Provider, c: McpService.Codec, gem: GeminiHooks)
    returns (r: Result<()>)
    requires McpService.RendersFaithfully(c)
    modifies fs
    ensures Snapshot(app, p, old(fs.files), gem).Err? ==>
      r.Err? && fs.files == AfterFailedSnapshot(app, p, old(fs.files), gem)
    ensures Snapshot(app, p, old(fs.files), gem).Ok? ==>
      McpService.Touched(Snapshot(app, p, old(fs.files), gem).value, fs.files, McpService.AllApps)
    ensures r.Ok? ==> LiveSynced(db, old(fs.files), fs.files, app, p, c, gem)
  {
    r := WriteLiveSnapshot(fs, app, p, gem);
    if r.Err? {
      return;
    }
    r := McpService.SyncAllEnabled(db, fs, c);
  }

  // ---------------------------------------------------------------------------
  // switch
  // ---------------------------------------------------------------------------

  /** The message of a switch to a provider that is not stored. */
  function NotFoundMessage(id: string): string
  {
    "供应商 " + id + " 不存在"
  }

  /** A row with its current flag ignored. */
  function Unflagged(row: ProviderRow): ProviderRow
  {
    row.(isCurrent := false)
  }

  /** `providers` is what `get_all_providers(app)` returned from `db`. */
  ghost predicate Listing(db: Database, app: string, providers: seq<Provider>)
    reads db
  {
    (forall id :: (exists i :: 0 <= i < |providers| && providers[i].id == id) <==> (app, id) in db.providers) &&
    (forall i :: 0 <= i < |providers| ==> db.ProviderOf(app, providers[i].id) == Some(providers[i]))
  }

  /** `providers.get(id)` on such a listing is the stored provider `id`. */
  lemma FindInListing(db: Database, app: string, providers: seq<Provider>, id: string)
    requires Listing(db, app, providers)
    ensures FindById(providers, id) == db.ProviderOf(app, id)
  {
    var found := FindById(providers, id);
    if found.Some? {
      var k :| 0 <= k < |providers| && providers[k] == found.value;
    } else {
      assert (app, id) !in db.providers;
    }
  }

  /** A stored row with its settings column replaced by `live`, as the backfill writes it. */
  function BackfilledRow(row: ProviderRow, live: Json): ProviderRow
  {
    row.(settings := Parsed(live), meta := Parsed(WithoutEndpoints(row.meta.Or(DefaultMeta))))
  }

  /**
   * Saving a provider read from the store with new settings rewrites its
   * settings column, and the meta column without endpoints; every other
   * column is written back as it was read.
   */
  lemma BackfillRowOf(id: string, row: ProviderRow, eps: map<string, CustomEndpoint>, live: Json)
    ensures RowOf(ReadProvider(id, row, eps).(settingsConfig := live), row.isCurrent) == BackfilledRow(row, live)
  {
  }

  /** A backfill of a row whose meta column parses and holds no endpoints changes its settings column only. */
  lemma BackfillChangesSettingsOnly(row: ProviderRow, live: Json)
    requires row.meta.Parsed? && row.meta.value.customEndpoints == map[]
    ensures BackfilledRow(row, live) == row.(settings := Parsed(live))
  {
  }

  /**
   * The backfill of `switch`: when the effective current provider is another
   * one and the live files read back, that provider is saved with the live
   * settings in place of its own. A failed save would be ignored.
   */
  method Backfill(db: Database, files: Files, app: AppType, providers: seq<Provider>, effective: Option<string>,
                  id: string, c: McpService.Codec)
    requires db.Valid() && Listing(db, AppName(app), providers)
    modifies db
    ensures db.Valid() && db.OnlyProviderTables()
    ensures db.providers.Keys == old(db.providers).Keys && db.endpoints == old(db.endpoints)
    ensures forall a :: db.CurrentIds(a) == old(db.CurrentIds(a))
    ensures forall k :: k in old(db.providers) && (effective.None? || k != (AppName(app), effective.value)) ==>
      db.providers[k] == old(db.providers)[k]
    ensures (effective.Some? && effective.value != id && (AppName(app), effective.value) in old(db.providers) &&
      ReadLiveSettings(app, files, c.parse).Ok?) ==>
      db.providers[(AppName(app), effective.value)] ==
        BackfilledRow(old(db.providers)[(AppName(app), effective.value)], ReadLiveSettings(app, files, c.parse).value)
    ensures !(effective.Some? && effective.value != id && ReadLiveSettings(app, files, c.parse).Ok?) ==>
      db.providers == old(db.providers)
  {
    if effective.Some? && effective.value != id {
      var live := ReadLiveSettings(app, files, c.parse);
      if live.Ok? {
        var current := FindById(providers, effective.value);
        FindInListing(db, AppName(app), providers, effective.value);
        if current.Some? {
          BackfillSave(db, app, current.value, live.value);
        }
      }
    }
  }

  /** The stored provider `p` saved again with `live` as its settings: its row becomes the backfilled row. */
  method BackfillSave(db: Database, app: AppType, p: Provider, live: Json)
    requires db.Valid() && db.ProviderOf(AppName(app), p.id) == Some(p)
    modifies db
    ensures db.Valid() && db.OnlyProviderTables() && db.endpoints == old(db.endpoints)
    ensures db.providers == old(db.providers)[(AppName(app), p.id) := BackfilledRow(old(db.providers)[(AppName(app), p.id)], live)]
    ensures forall a :: db.CurrentIds(a) == old(db.CurrentIds(a))
  {
    BackfillRowOf(p.id, db.providers[(AppName(app), p.id)],
                  EndpointsOf(RowsOf(db.endpoints, AppName(app), p.id)), live);
    SaveKeepingCurrent(db, app, p.(settingsConfig := live));
  }

  /**
   * `ProviderService::switch`: a provider that is not stored is refused
   * before anything changes. Otherwise the effective current provider is
   * backfilled from the live files, this device's choice is saved
   * (`writeFails` is whether that write fails), the store's current flag is
   * moved, and the provider's live files are written and the MCP servers
   * synced. A failure stops the switch where it happens; the backfill and
   * whatever else was done stay.
   */
  method Switch(db: Database, settings: SettingsStore, fs: FileSystem, app: AppType, id: string,
                c: McpService.Codec, gem: GeminiHooks, clearFails: bool, writeFails: bool)
    returns (r: Result<()>)
    requires db.Valid() && settings.Valid() && McpService.RendersFaithfully(c)
    modifies db, settings, fs
    ensures db.Valid() && settings.Valid() && db.OnlyProviderTables()
    ensures db.providers.Keys == old(db.providers).Keys && db.endpoints == old(db.endpoints)
    ensures old(db.ProviderOf(AppName(app), id)).None? ==>
      r == Err(Message(NotFoundMessage(id))) && db.NoTableChanged() && fs.files == old(fs.files) &&
      settings.cache == old(settings.cache) && settings.file == old(settings.file)
    ensures r.Ok? ==>
      settings.GetCurrentProvider(app) == Some(id) && db.CurrentIds(AppName(app)) == {id} &&
      LiveSynced(db, old(fs.files), fs.files, app, old(db.ProviderOf(AppName(app), id)).value, c, gem)
    ensures writeFails ==>
      r.Err? && fs.files == old(fs.files) && db.CurrentIds(AppName(app)) == old(db.CurrentIds(AppName(app)))
    ensures !writeFails && old(db.ProviderOf(AppName(app), id)).Some? ==>
      settings.GetCurrentProvider(app) == Some(id) && db.CurrentIds(AppName(app)) == {id} &&
      AfterLiveWrite(old(fs.files), fs.files, r, app, old(db.ProviderOf(AppName(app), id)).value, gem)
    ensures SwitchedRows(old(db.providers), db.providers, AppName(app), old(CandidatesOf(settings, db, app)), id,
                         ReadLiveSettings(app, old(fs.files), c.parse))
    ensures forall a :: a != AppName(app) ==> db.CurrentIds(a) == old(db.CurrentIds(a))
  {
    var providers := db.GetAllProviders(AppName(app));
    var found := FindById(providers, id);
    FindInListing(db, AppName(app), providers, id);
    if found.None? {
      return Err(Message(NotFoundMessage(id)));
    }
    assert (AppName(app), id) in db.providers;
    r := SwitchFound(db, settings, fs, app, id, providers, found.value, c, gem, clearFails, writeFails);
  }

  /**
   * The rows after a switch, current flags aside: when exactly one other
   * provider `cur` was current and the live settings could be read, `cur`
   * holds its backfilled row; every row outside the candidates is unchanged.
   */
  ghost predicate SwitchedRows(before: map<(string, string), ProviderRow>, after: map<(string, string), ProviderRow>,
                               app: string, cands: set<string>, id: string, live: Result<Json>)
  {
    (forall cur :: cands == {cur} && cur != id && (app, id) in before && (app, cur) in before && live.Ok? ==>
       (app, cur) in after && Unflagged(after[(app, cur)]) == Unflagged(BackfilledRow(before[(app, cur)], live.value))) &&
    (forall k :: k in before && !(k.0 == app && k.1 in cands) ==> k in after && Unflagged(after[k]) == Unflagged(before[k]))
  }

  /** `switch` once the provider was found in the listing `providers`. */
  method SwitchFound(db: Database, settings: SettingsStore, fs: FileSystem, app: AppType, id: string,
                     providers: seq<Provider>, target: Provider,
                     c: McpService.Codec, gem: GeminiHooks, clearFails: bool, writeFails: bool)
    returns (r: Result<()>)
    requires db.Valid() && settings.Valid() && McpService.RendersFaithfully(c)
    requires Listing(db, AppName(app), providers) && db.ProviderOf(AppName(app), id) == Some(target)
    modifies db, settings, fs
    ensures db.Valid() && settings.Valid() && db.OnlyProviderTables()
    ensures db.providers.Keys == old(db.providers).Keys && db.endpoints == old(db.endpoints)
    ensures r.Ok? ==>
      settings.GetCurrentProvider(app) == Some(id) && db.CurrentIds(AppName(app)) == {id} &&
      LiveSynced(db, old(fs.files), fs.files, app, target, c, gem)
    ensures writeFails ==>
      r.Err? && fs.files == old(fs.files) && db.CurrentIds(AppName(app)) == old(db.CurrentIds(AppName(app)))
    ensures !writeFails ==> settings.GetCurrentProvider(app) == Some(id) && db.CurrentIds(AppName(app)) == {id}
    ensures !writeFails ==> AfterLiveWrite(old(fs.files), fs.files, r, app, target, gem)
    ensures SwitchedRows(old(db.providers), db.providers, AppName(app), old(CandidatesOf(settings, db, app)), id,
                         ReadLiveSettings(app, old(fs.files), c.parse))
    ensures forall a :: a != AppName(app) ==> db.CurrentIds(a) == old(db.CurrentIds(a))
  {
    BackfillCurrent(db, settings, fs.files, app, providers, id, c, clearFails);
    r := Activate(db, settings, fs, app, id, target, c, gem, writeFails);
  }

  /** The effective current provider is looked up, then backfilled when it is not `id`. */
  method BackfillCurrent(db: Database, settings: SettingsStore, files: Files, app: AppType, providers: seq<Provider>,
                         id: string, c: McpService.Codec, clearFails: bool)
    requires db.Valid() && settings.Valid() && Listing(db, AppName(app), providers)
    modifies db, settings
    ensures db.Valid() && settings.Valid() && db.OnlyProviderTables()
    ensures db.providers.Keys == old(db.providers).Keys && db.endpoints == old(db.endpoints)
    ensures forall a :: db.CurrentIds(a) == old(db.CurrentIds(a))
    ensures forall cur :: (old(CandidatesOf(settings, db, app)) == {cur} && cur != id &&
      ReadLiveSettings(app, files, c.parse).Ok?) ==>
        db.providers[(AppName(app), cur)] ==
        BackfilledRow(old(db.providers)[(AppName(app), cur)], ReadLiveSettings(app, files, c.parse).value)
    ensures forall k :: k in old(db.providers) && !(k.0 == AppName(app) && k.1 in old(CandidatesOf(settings, db, app))) ==>
      db.providers[k] == old(db.providers)[k]
  {
    var effective := EffectiveCurrent(db, settings, app, clearFails);
    Backfill(db, files, app, providers, effective, id, c);
  }

  /**
   * The steps of `switch` after the backfill: this device's choice is saved,
   * the store's current flag moved, the live files written and the MCP
   * servers synced, stopping at the first failure.
   */
  method Activate(db: Database, settings: SettingsStore, fs: FileSystem, app: AppType, id: string, target: Provider,
                  c: McpService.Codec, gem: GeminiHooks, writeFails: bool)
    returns (r: Result<()>)
    requires db.Valid() && settings.Valid() && McpService.RendersFaithfully(c) && (AppName(app), id) in db.providers
    modifies db, settings, fs
    ensures db.Valid() && settings.Valid() && db.OnlyProviderTables()
    ensures db.providers.Keys == old(db.providers).Keys && db.endpoints == old(db.endpoints)
    ensures forall k :: k in db.providers ==> Unflagged(db.providers[k]) == Unflagged(old(db.providers)[k])
    ensures forall a :: a != AppName(app) ==> db.CurrentIds(a) == old(db.CurrentIds(a))
    ensures writeFails ==>
      r.Err? && fs.files == old(fs.files) && db.CurrentIds(AppName(app)) == old(db.CurrentIds(AppName(app)))
    ensures r.Ok? ==>
      settings.GetCurrentProvider(app) == Some(id) && db.CurrentIds(AppName(app)) == {id} &&
      LiveSynced(db, old(fs.files), fs.files, app, target, c, gem)
    ensures !writeFails ==> settings.GetCurrentProvider(app) == Some(id) && db.CurrentIds(AppName(app)) == {id}
    ensures !writeFails ==> AfterLiveWrite(old(fs.files), fs.files, r, app, target, gem)
  {
    var s := settings.SetCurrentProvider(app, Some(id), writeFails);
    if s.Err? {
      return Err(s.error);
    }
    MoveCurrent(db, app, id);
    r := WriteLiveAndSync(db, fs, app, target, c, gem);
  }

  /** The store's current flag moves to `id`, which is stored, within `app`. */
  method MoveCurrent(db: Database, app: AppType, id: string)
    requires db.Valid() && (AppName(app), id) in db.providers
    modifies db
    ensures db.Valid() && db.OnlyProviderTables()
    ensures db.providers.Keys == old(db.providers).Keys && db.endpoints == old(db.endpoints)
    ensures db.CurrentIds(AppName(app)) == {id}
    ensures forall a :: a != AppName(app) ==> db.CurrentIds(a) == old(db.CurrentIds(a))
    ensures forall k :: k in db.providers ==> Unflagged(db.providers[k]) == Unflagged(old(db.providers)[k])
  {
    db.SetCurrentProvider(AppName(app), id);
    assert db.CurrentIds(AppName(app)) == {id} by {
      forall x
        ensures x in db.CurrentIds(AppName(app)) <==> x == id
      {
      }
    }
    forall a | a != AppName(app)
      ensures db.CurrentIds(a) == old(db.CurrentIds(a))
    {
      forall x
        ensures x in db.CurrentIds(a) <==> x in old(db.CurrentIds(a))
      {
      }
    }
  }

  // ---------------------------------------------------------------------------
  // update_sort_order
  // ---------------------------------------------------------------------------

  /** `ProviderSortUpdate`: the new position of one provider. */
  datatype SortUpdate = SortUpdate(id: string, sortIndex: nat)

  /** The position the last update naming `id` gives it; None when no update names it. */
  function LastSortIndex(updates: seq<SortUpdate>, id: string): (r: Option<nat>)
    ensures r.None? <==> forall i :: 0 <= i < |updates| ==> updates[i].id != id
    ensures r.Some? ==> exists i :: 0 <= i < |updates| && updates[i] == SortUpdate(id, r.value) &&
                                     (forall j :: i < j < |updates| ==> updates[j].id != id)
  {
    if updates == [] then None
    else if updates[|updates| - 1].id == id then Some(updates[|updates| - 1].sortIndex)
    else LastSortIndex(updates[..|updates| - 1], id)
  }

  /** The listing of `get_all_providers` as the map it is, keyed by id. */
  function ById(ps: seq<Provider>): (m: map<string, Provider>)
    ensures forall i :: 0 <= i < |ps| ==> ps[i].id in m
    ensures forall id :: id in m ==> m[id] in ps && m[id].id == id
  {
    if ps == [] then map[] else ById(ps[..|ps| - 1])[ps[|ps| - 1].id := ps[|ps| - 1]]
  }

  /**
   * `ProviderService::update_sort_order`: each update naming a listed provider
   * sets its position and saves it, so a provider named several times ends at
   * the last position given; updates naming no provider are skipped. The saves
   * keep each row's current flag and the endpoint rows.
   */
  method UpdateSortOrder(db: Database, app: AppType, updates: seq<SortUpdate>) returns (r: Result<bool>)
    requires db.Valid()
    modifies db
    ensures r == Ok(true)
    ensures db.Valid() && db.OnlyProviderTables() && db.endpoints == old(db.endpoints)
    ensures db.providers.Keys == old(db.providers).Keys
    ensures forall id :: (AppName(app), id) in old(db.providers) && LastSortIndex(updates, id).Some? ==>
      db.providers[(AppName(app), id)] ==
      RowOf(old(db.ProviderOf(AppName(app), id)).value.(sortIndex := LastSortIndex(updates, id)),
            old(db.providers)[(AppName(app), id)].isCurrent)
    ensures forall k :: k in old(db.providers) && !(k.0 == AppName(app) && LastSortIndex(updates, k.1).Some?) ==>
      db.providers[k] == old(db.providers)[k]
  {
    var name := AppName(app);
    var providers := db.GetAllProviders(name);
    var listed := ById(providers);
    forall id | id in listed
      ensures (name, id) in db.providers && db.ProviderOf(name, id) == Some(listed[id])
    {
      var k :| 0 <= k < |providers| && providers[k] == listed[id];
    }
    assert forall id :: (name, id) in db.providers ==> id in listed;
    ghost var start := SortState(db.providers, listed);
    ApplySortUpdates(db, name, listed, updates);
    SortAllKeys(start, name, updates);
    forall k | k in old(db.providers)
      ensures k.0 == name && LastSortIndex(updates, k.1).Some? ==>
        db.providers[k] == RowOf(old(db.ProviderOf(name, k.1)).value.(sortIndex := LastSortIndex(updates, k.1)), old(db.providers)[k].isCurrent)
      ensures !(k.0 == name && LastSortIndex(updates, k.1).Some?) ==> db.providers[k] == old(db.providers)[k]
    {
      SortAllRow(start, name, updates, k);
    }
    r := Ok(true);
  }

  /** The provider with the position the updates give it. */
  function Resorted(p: Provider, updates: seq<SortUpdate>): Provider
  {
    if LastSortIndex(updates, p.id).Some? then p.(sortIndex := LastSortIndex(updates, p.id)) else p
  }

  /** The provider rows and the in-memory listing while `update_sort_order` runs. */
  datatype SortState = SortState(rows: map<(string, string), ProviderRow>, listed: map<string, Provider>)

  /** One update: a listed provider gets the position in the listing and is saved over its row. */
  function SortStep(s: SortState, name: string, u: SortUpdate): SortState
  {
    if u.id in s.listed && (name, u.id) in s.rows then
      var p := s.listed[u.id].(sortIndex := Some(u.sortIndex));
      SortState(s.rows[(name, u.id) := RowOf(p, s.rows[(name, u.id)].isCurrent)], s.listed[u.id := p])
    else s
  }

  /** The updates applied in order. */
  function SortAll(s: SortState, name: string, updates: seq<SortUpdate>): SortState
  {
    if updates == [] then s else SortStep(SortAll(s, name, updates[..|updates| - 1]), name, updates[|updates| - 1])
  }

  /** A listing of the providers stored under `name`, keyed by their ids. */
  ghost predicate ListingOf(s: SortState, name: string)
  {
    (forall id :: id in s.listed <==> (name, id) in s.rows) &&
    (forall id :: id in s.listed ==> s.listed[id].id == id)
  }

  /** The updates keep the stored keys and the listing of them. */
  lemma {:induction false} SortAllKeys(s: SortState, name: string, updates: seq<SortUpdate>)
    requires ListingOf(s, name)
    ensures ListingOf(SortAll(s, name, updates), name)
    ensures SortAll(s, name, updates).rows.Keys == s.rows.Keys && SortAll(s, name, updates).listed.Keys == s.listed.Keys
  {
    if updates != [] {
      SortAllKeys(s, name, updates[..|updates| - 1]);
    }
  }

  /** After all the updates, every listed provider has the position the last update naming it gives. */
  lemma {:induction false} SortAllListed(s: SortState, name: string, updates: seq<SortUpdate>, id: string)
    requires ListingOf(s, name) && id in s.listed
    ensures id in SortAll(s, name, updates).listed
    ensures SortAll(s, name, updates).listed[id] == Resorted(s.listed[id], updates)
  {
    if updates != [] {
      var n := |updates| - 1;
      assert updates == updates[..n] + [updates[n]];
      LastSortIndexSnoc(updates[..n], updates[n]);
      SortAllKeys(s, name, updates[..n]);
      SortAllListed(s, name, updates[..n], id);
    }
  }

  /**
   * After all the updates, the row of a provider some update names is that
   * provider with its last position, saved with its old current flag; rows no
   * update names are unchanged.
   */
  lemma {:induction false} SortAllRow(s: SortState, name: string, updates: seq<SortUpdate>, k: (string, string))
    requires ListingOf(s, name) && k in s.rows
    ensures k in SortAll(s, name, updates).rows
    ensures k.0 == name && LastSortIndex(updates, k.1).Some? ==>
      SortAll(s, name, updates).rows[k] == RowOf(Resorted(s.listed[k.1], updates), s.rows[k].isCurrent)
    ensures !(k.0 == name && LastSortIndex(updates, k.1).Some?) ==> SortAll(s, name, updates).rows[k] == s.rows[k]
  {
    if updates != [] {
      var n := |updates| - 1;
      var u := updates[n];
      var prev := SortAll(s, name, updates[..n]);
      assert SortAll(s, name, updates) == SortStep(prev, name, u);
      assert updates == updates[..n] + [u];
      LastSortIndexSnoc(updates[..n], u);
      SortAllKeys(s, name, updates[..n]);
      SortAllRow(s, name, updates[..n], k);
      SortStepRow(prev, name, u, k);
      if k == (name, u.id) {
        SortAllListed(s, name, updates[..n], u.id);
        assert Resorted(s.listed[u.id], updates) == s.listed[u.id].(sortIndex := Some(u.sortIndex));
      }
    }
  }

  /** One update rewrites the row of the provider it names, from the listing, and no other row. */
  lemma SortStepRow(t: SortState, name: string, u: SortUpdate, k: (string, string))
    requires ListingOf(t, name) && k in t.rows
    ensures k in SortStep(t, name, u).rows
    ensures k == (name, u.id) ==>
      SortStep(t, name, u).rows[k] == RowOf(t.listed[u.id].(sortIndex := Some(u.sortIndex)), t.rows[k].isCurrent)
    ensures k != (name, u.id) ==> SortStep(t, name, u).rows[k] == t.rows[k]
  {
  }

  /** The loop of `update_sort_order`, over the listing `listed` of the providers stored under `name`. */
  method ApplySortUpdates(db: Database, name: string, listed: map<string, Provider>, updates: seq<SortUpdate>)
    requires db.Valid() && ListingOf(SortState(db.providers, listed), name)
    modifies db
    ensures db.Valid() && db.OnlyProviderTables() && db.endpoints == old(db.endpoints)
    ensures db.providers == SortAll(SortState(old(db.providers), listed), name, updates).rows
  {
    var current := listed;
    for i := 0 to |updates|
      invariant db.Valid() && db.OnlyProviderTables() && db.endpoints == old(db.endpoints)
      invariant SortState(db.providers, current) == SortAll(SortState(old(db.providers), listed), name, updates[..i])
    {
      assert updates[..i + 1][..i] == updates[..i];
      SortAllKeys(SortState(old(db.providers), listed), name, updates[..i]);
      current := ApplySortUpdate(db, name, current, updates[i]);
    }
    assert updates[..|updates|] == updates;
  }

  /** The last update decides: one more update changes the position of the provider it names only. */
  lemma LastSortIndexSnoc(updates: seq<SortUpdate>, u: SortUpdate)
    ensures LastSortIndex(updates + [u], u.id) == Some(u.sortIndex)
    ensures forall id :: id != u.id ==> LastSortIndex(updates + [u], id) == LastSortIndex(updates, id)
  {
    assert (updates + [u])[..|updates|] == updates;
  }

  /** One update of `update_sort_order`: a listed provider gets the position and is saved. */
  method ApplySortUpdate(db: Database, name: string, listed: map<string, Provider>, u: SortUpdate)
    returns (after: map<string, Provider>)
    requires db.Valid() && ListingOf(SortState(db.providers, listed), name)
    modifies db
    ensures db.Valid() && db.OnlyProviderTables() && db.endpoints == old(db.endpoints)
    ensures SortState(db.providers, after) == SortStep(SortState(old(db.providers), listed), name, u)
  {
    after := listed;
    if u.id in listed {
      after := listed[u.id := listed[u.id].(sortIndex := Some(u.sortIndex))];
      db.SaveProvider(name, after[u.id]);
    }
  }

  /**
   * For a row whose JSON columns parse and whose meta blob holds no endpoints,
   * as every row `save_provider` writes does, re-saving it with a new position
   * changes the position and nothing else.
   */
  lemma ResortChangesOnlyPosition(id: string, row: ProviderRow, eps: map<string, CustomEndpoint>, n: nat)
    requires row.settings.Parsed? && row.meta.Parsed? && row.meta.value.customEndpoints == map[]
    ensures RowOf(ReadProvider(id, row, eps).(sortIndex := Some(n)), row.isCurrent) == row.(sortIndex := Some(n))
  {
    var p := ReadProvider(id, row, eps).(sortIndex := Some(n));
    assert WithoutEndpoints(MetaOrDefault(p)) == row.meta.value;
  }

  // ---------------------------------------------------------------------------
  // import_default_config
  // ---------------------------------------------------------------------------

  /**
   * The error `import_default_config(app)` gives when the main live file of
   * `app` is missing: its own keys and texts for Codex, Gemini and Qwen, those
   * of `read_live_settings` for Claude and Grok.
   */
  function ImportMissing(app: AppType): (e: Error)
    ensures app == Claude || app == Grok ==> e == LiveMissing(app)
    ensures app != Claude && app != Grok ==> e != LiveMissing(app)
  {
    match app
    case Codex => Localized("codex.live.missing", "Codex 配置文件不存在", "Codex configuration file is missing")
    case Gemini => Localized("gemini.live.missing", "Gemini 配置文件不存在", "Gemini configuration file is missing")
    case Qwen => Localized("qwen.live.missing", "Qwen 配置文件不存在", "Qwen configuration file is missing")
    case _ => LiveMissing(app)
  }

  /**
   * The settings the first-run import reads: the live settings (a missing main
   * file is the import's own error), Claude's with its model keys normalised.
   */
  function DefaultSettings(app: AppType, files: Files, parse: TomlParser): (r: Result<Json>)
    ensures MainFileAbsent(app, files) ==> r == Err(ImportMissing(app))
    ensures r.Ok? <==> ReadLiveSettings(app, files, parse).Ok?
    ensures r.Ok? && app != Claude ==> r.value == ReadLiveSettings(app, files, parse).value
    ensures r.Ok? && app == Claude ==> r.value == ClaudeModels.Normalized(ReadLiveSettings(app, files, parse).value)
    ensures r.Err? && !MainFileAbsent(app, files) ==> r.error == ReadLiveSettings(app, files, parse).error
  {
    var s := ReadLive(app, files, parse, ImportMissing(app));
    if s.Ok? && app == Claude then Ok(ClaudeModels.Normalized(s.value)) else s
  }

  /** The provider the first-run import saves: id and name `default`, category `custom`. */
  function DefaultProvider(settings: Json): (p: Provider)
    ensures p.id == "default" && p.name == "default" && p.settingsConfig == settings
    ensures p.category == Some("custom") && p.meta.None? && p.sortIndex.None? && p.createdAt.None?
  {
    WithId("default", "default", settings, None).(category := Some("custom"))
  }

  /**
   * `import_default_config(app)`: an application that already has providers is
   * skipped; otherwise its live settings are read (a missing or unreadable
   * file is the error and nothing changes) and saved as the `default`
   * provider, which becomes the current one.
   */
  method ImportDefaultConfig(db: Database, files: Files, app: AppType, parse: TomlParser) returns (r: Result<bool>)
    requires db.Valid()
    modifies db
    ensures db.Valid() && db.OnlyProviderTables() && db.endpoints == old(db.endpoints)
    ensures old(db.AppIds(AppName(app))) != {} ==> r == Ok(false) && db.NoTableChanged()
    ensures old(db.AppIds(AppName(app))) == {} && DefaultSettings(app, files, parse).Err? ==>
      r == Err(DefaultSettings(app, files, parse).error) && db.NoTableChanged()
    ensures old(db.AppIds(AppName(app))) == {} && DefaultSettings(app, files, parse).Ok? ==>
      r == Ok(true) &&
      db.providers == old(db.providers)[(AppName(app), "default") := RowOf(DefaultProvider(DefaultSettings(app, files, parse).value), true)]
  {
    var name := AppName(app);
    var providers := db.GetAllProviders(name);
    if |providers| != 0 {
      assert (name, providers[0].id) in db.providers;
      return Ok(false);
    }
    var settings := DefaultSettings(app, files, parse);
    if settings.Err? {
      return Err(settings.error);
    }
    SaveAsCurrent(db, name, DefaultProvider(settings.value));
    r := Ok(true);
  }

  /** `save_provider` then `set_current_provider` for the first provider of `name`, which has no meta endpoints. */
  method SaveAsCurrent(db: Database, name: string, p: Provider)
    requires db.Valid() && db.AppIds(name) == {} && p.meta.None?
    modifies db
    ensures db.Valid() && db.OnlyProviderTables() && db.endpoints == old(db.endpoints)
    ensures db.providers == old(db.providers)[(name, p.id) := RowOf(p, true)]
  {
    assert forall k :: k in db.providers ==> k.0 != name;
    db.SaveProvider(name, p);
    assert NewEndpointRows(name, p) == {};
    db.SetCurrentProvider(name, p.id);
    assert db.providers == old(db.providers)[(name, p.id) := RowOf(p, true)];
  }

  /** The imported provider reads back with the live settings, as a `custom` provider with default metadata. */
  lemma ImportedReadsBack(settings: Json)
    ensures ReadProvider("default", RowOf(DefaultProvider(settings), true), map[]) ==
      DefaultProvider(settings).(meta := Some(DefaultMeta))
  {
  }

  // ---------------------------------------------------------------------------
  // sync_current_to_live
  // ---------------------------------------------------------------------------

  /**
   * The live files after writing, one application after another, the provider
   * picked for each of `apps` (`picks[j]` for `apps[j]`; None skips it),
   * stopping at the first snapshot that fails.
   */
  function SnapshotEach(apps: seq<AppType>, picks: seq<Option<Provider>>, files: Files, gem: GeminiHooks): Result<Files>
    requires |picks| == |apps|
  {
    if apps == [] then Ok(files)
    else
      var prev := SnapshotEach(apps[..|apps| - 1], picks[..|apps| - 1], files, gem);
      var pick := picks[|apps| - 1];
      if prev.Err? || pick.None? then prev else Snapshot(apps[|apps| - 1], pick.value, prev.value, gem)
  }

  /** One more application: its pick is written over the files so far, unless an earlier write failed. */
  lemma SnapshotEachSnoc(apps: seq<AppType>, picks: seq<Option<Provider>>, a: AppType, pick: Option<Provider>,
                         files: Files, gem: GeminiHooks)
    requires |picks| == |apps|
    ensures var prev := SnapshotEach(apps, picks, files, gem);
      SnapshotEach(apps + [a], picks + [pick], files, gem) ==
      if prev.Err? || pick.None? then prev else Snapshot(a, pick.value, prev.value, gem)
  {
    assert (apps + [a])[..|apps|] == apps;
    assert (picks + [pick])[..|apps|] == picks;
  }

  /** An application nothing was picked for keeps its own live files through the writes. */
  lemma {:induction false} SnapshotEachSkips(apps: seq<AppType>, picks: seq<Option<Provider>>, files: Files,
                                             gem: GeminiHooks, b: AppType)
    requires |picks| == |apps| && SnapshotEach(apps, picks, files, gem).Ok?
    requires forall j :: 0 <= j < |apps| && apps[j] == b ==> picks[j].None?
    ensures SameAppFiles(files, SnapshotEach(apps, picks, files, gem).value, b)
  {
    if apps != [] {
      var n := |apps| - 1;
      var prev := SnapshotEach(apps[..n], picks[..n], files, gem);
      SnapshotEachSkips(apps[..n], picks[..n], files, gem, b);
      if picks[n].Some? {
        SnapshotFrame(apps[n], picks[n].value, prev.value, gem);
      }
    }
  }

  /**
   * `sync_current_to_live`: for each application in turn, its effective
   * current provider (when it has one) is written live, stopping at the first
   * write that fails; then every MCP server is synced. `picks` records, for
   * the applications reached, the provider written or None when there was
   * none. The store is only read; looking up the current provider may clear
   * a stale local choice.
   */
  method SyncCurrentToLive(db: Database, settings: SettingsStore, fs: FileSystem, c: McpService.Codec, gem: GeminiHooks,
                           clearFails: bool)
    returns (r: Result<()>, ghost picks: seq<Option<Provider>>)
    requires db.Valid() && settings.Valid() && McpService.RendersFaithfully(c)
    modifies settings, fs
    ensures settings.Valid() && |picks| <= |AllApps|
    ensures forall a :: AppIndex(a) < |picks| ==> PickAgrees(db, a, old(CandidatesOf(settings, db, a)), picks[AppIndex(a)])
    ensures SnapshotEach(AllApps[..|picks|], picks, old(fs.files), gem).Err? ==> r.Err?
    ensures r.Err? && |picks| < |AllApps| ==> SnapshotEach(AllApps[..|picks|], picks, old(fs.files), gem).Err?
    ensures r.Ok? ==>
      |picks| == |AllApps| && SnapshotEach(AllApps, picks, old(fs.files), gem).Ok? &&
      McpService.Touched(SnapshotEach(AllApps, picks, old(fs.files), gem).value, fs.files, McpService.AllApps) &&
      forall id, a :: db.McpOf(id).Some? && db.McpOf(id).value.apps.Get(a) ==> McpService.Listed(fs.files, a, id, c)
  {
    r, picks := WriteEachCurrent(db, settings, fs, gem, clearFails);
    if r.Err? {
      return;
    }
    r := McpService.SyncAllEnabled(db, fs, c);
  }

  /** The loop of `sync_current_to_live` over the applications, before the MCP sync. */
  method WriteEachCurrent(db: Database, settings: SettingsStore, fs: FileSystem, gem: GeminiHooks, clearFails: bool)
    returns (r: Result<()>, ghost picks: seq<Option<Provider>>)
    requires db.Valid() && settings.Valid()
    modifies settings, fs
    ensures settings.Valid() && |picks| <= |AllApps|
    ensures forall a :: AppIndex(a) < |picks| ==> PickAgrees(db, a, old(CandidatesOf(settings, db, a)), picks[AppIndex(a)])
    ensures r.Ok? <==> SnapshotEach(AllApps[..|picks|], picks, old(fs.files), gem).Ok?
    ensures r.Ok? ==> |picks| == |AllApps| && SnapshotEach(AllApps, picks, old(fs.files), gem) == Ok(fs.files)
  {
    picks := [];
    r := Ok(());
    var i := 0;
    while i < |AllApps| && r.Ok?
      invariant settings.Valid() && i <= |AllApps| && |picks| == i
      invariant forall a :: AppIndex(a) >= i ==> settings.GetCurrentProvider(a) == old(settings.GetCurrentProvider(a))
      invariant forall a :: AppIndex(a) < i ==> PickAgrees(db, a, old(CandidatesOf(settings, db, a)), picks[AppIndex(a)])
      invariant SnapshotEach(AllApps[..i], picks, old(fs.files), gem).Ok? == r.Ok?
      invariant r.Ok? ==> SnapshotEach(AllApps[..i], picks, old(fs.files), gem) == Ok(fs.files)
    {
      AppIndexOf(i);
      ghost var pick;
      r, pick := SyncCurrentStep(db, settings, fs, AllApps[i], gem, clearFails);
      SnapshotEachSnoc(AllApps[..i], picks, AllApps[i], pick, old(fs.files), gem);
      assert AllApps[..i] + [AllApps[i]] == AllApps[..i + 1];
      picks := picks + [pick];
      i := i + 1;
    }
    assert AllApps[..|AllApps|] == AllApps;
  }

  /** What was picked for `app` agrees with its candidates: a stored candidate, or nothing when there is none. */
  ghost predicate PickAgrees(db: Database, app: AppType, cand: set<string>, pick: Option<Provider>)
    reads db
  {
    (pick.None? <==> cand == {}) &&
    (pick.Some? ==> pick.value.id in cand && db.ProviderOf(AppName(app), pick.value.id) == pick)
  }

  /** One application of `sync_current_to_live`: its effective current provider, if any, is written live. */
  method SyncCurrentStep(db: Database, settings: SettingsStore, fs: FileSystem, app: AppType, gem: GeminiHooks,
                         clearFails: bool)
    returns (r: Result<()>, ghost pick: Option<Provider>)
    requires db.Valid() && settings.Valid()
    modifies settings, fs
    ensures settings.Valid()
    ensures forall other :: other != app ==> settings.GetCurrentProvider(other) == old(settings.GetCurrentProvider(other))
    ensures PickAgrees(db, app, old(CandidatesOf(settings, db, app)), pick)
    ensures pick.None? ==> r.Ok? && fs.files == old(fs.files)
    ensures pick.Some? ==> (r.Ok? <==> Snapshot(app, pick.value, old(fs.files), gem).Ok?)
    ensures pick.Some? && r.Ok? ==> fs.files == Snapshot(app, pick.value, old(fs.files), gem).value
    ensures pick.Some? && r.Err? ==> fs.files == AfterFailedSnapshot(app, pick.value, old(fs.files), gem)
  {
    var current := EffectiveCurrent(db, settings, app, clearFails);
    if current.None? {
      return Ok(()), None;
    }
    var providers := db.GetAllProviders(AppName(app));
    var found := FindById(providers, current.value);
    FindInListing(db, AppName(app), providers, current.value);
    pick := found;
    r := WriteLiveSnapshot(fs, app, found.value, gem);
  }
}
