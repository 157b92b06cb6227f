/**
 * The one-shot import of the legacy `config.json` (`MultiAppConfig`) into the
 * store (database/migration.rs): five steps inside one transaction, each an
 * INSERT loop, and a dry run of the same steps on a fresh in-memory store.
 */
module LegacyMigration {
  import opened Wrappers
  import opened Values
  import opened Providers
  import opened Records
  import opened Schema
  import opened Store
  import opened Collections

  /** The legacy MCP section: the unified server map (v3.7.0+) and the older per-application maps. */
  datatype McpRoot = McpRoot(servers: Option<map<string, McpServer>>, legacy: map<AppType, map<string, Json>>)

  /** The legacy prompt section: one map per application that had prompts. */
  datatype PromptRoot = PromptRoot(claude: map<string, Prompt>, codex: map<string, Prompt>, gemini: map<string, Prompt>)

  datatype SkillStore = SkillStore(skills: map<string, SkillState>, repos: seq<SkillRepo>)

  datatype CommonSnippets = CommonSnippets(claude: Option<string>, codex: Option<string>, gemini: Option<string>)

  /** `MultiAppConfig`: the provider managers by application name, and the other sections. */
  datatype MultiAppConfig = MultiAppConfig(
    apps: map<string, ProviderManager>,
    mcp: McpRoot,
    prompts: PromptRoot,
    skills: SkillStore,
    snippets: CommonSnippets)

  // ---------------------------------------------------------------------------
  // The providers INSERT and the table it targets
  // ---------------------------------------------------------------------------

  /** The column list of the providers INSERT as written, which also names three flags. */
  const ProviderInsertColumnsAsWritten: seq<string> := [
    "id", "app_type", "name", "settings_config", "website_url", "category", "created_at", "sort_index",
    "notes", "icon", "icon_color", "meta", "is_current", "is_pinned", "is_duplicated",
    "is_edited_after_duplication"]

  /** The column list the providers table has: the first thirteen of the above. */
  const ProviderInsertColumns: seq<string> := ProviderInsertColumnsAsWritten[..13]

  /** The providers table a version 1 store has lacks `is_pinned`: no column name has its length. */
  lemma ProvidersLackPinnedFlag()
    ensures !ColumnIn(V1Tables[0].columns, "is_pinned")
  {
    var cols := V1Tables[0].columns;
    forall j | 0 <= j < |cols| ensures |cols[j].name| != 9 {
      assert |cols| == 13;
      if j < 4 {
        assert |cols[0].name| == 2 && |cols[1].name| == 8 && |cols[2].name| == 4 && |cols[3].name| == 15;
      } else if j < 8 {
        assert |cols[4].name| == 11 && |cols[5].name| == 8 && |cols[6].name| == 10 && |cols[7].name| == 10;
      } else {
        assert |cols[8].name| == 5 && |cols[9].name| == 4 && |cols[10].name| == 10 && |cols[11].name| == 4;
        assert |cols[12].name| == 10;
      }
    }
    NoColumnOfLength(cols, "is_pinned");
  }

  /** The thirteen-column INSERT names only columns the providers table has. */
  lemma CorrectedInsertAccepted()
    ensures ColumnsExist(ProviderInsertColumns, V1Tables[0])
  {
    var cols := V1Tables[0].columns;
    forall i | 0 <= i < 13
      ensures ColumnIn(cols, ProviderInsertColumns[i])
    {
      assert ProviderInsertColumns[i] == cols[i].name;
      ExactColumn(cols, i, ProviderInsertColumns[i]);
    }
  }

  /** The INSERT as written is rejected: its fourteenth column is `is_pinned`. */
  lemma AsWrittenInsertRejected()
    ensures !ColumnsExist(ProviderInsertColumnsAsWritten, V1Tables[0])
  {
    ProvidersLackPinnedFlag();
    assert ProviderInsertColumnsAsWritten[13] == "is_pinned";
    MissingColumnRejects(ProviderInsertColumnsAsWritten, V1Tables[0], 13);
  }

  // ---------------------------------------------------------------------------
  // What each step writes
  // ---------------------------------------------------------------------------

  /**
   * The provider rows: one per provider of every manager, keyed by application
   * name and map key, `is_current` iff the key is the manager's `current`.
   */
  function ProviderRows(apps: map<string, ProviderManager>): (rows: map<(string, string), ProviderRow>)
    ensures forall k :: k in rows <==> k.0 in apps && k.1 in apps[k.0].providers
    ensures forall k :: k in rows ==> rows[k] == RowOf(apps[k.0].providers[k.1], k.1 == apps[k.0].current)
  {
    map k | k in (set a, id | a in apps && id in apps[a].providers :: (a, id)) ::
      RowOf(apps[k.0].providers[k.1], k.1 == apps[k.0].current)
  }

  /** The endpoint rows of each provider: one per entry of its meta's `custom_endpoints`. */
  function EndpointSets(apps: map<string, ProviderManager>): (f: map<(string, string), set<EndpointRow>>)
    ensures f.Keys == ProviderRows(apps).Keys
    ensures forall k :: k in f ==>
      f[k] == EndpointRowsFor(k.0, k.1, MetaOrDefault(apps[k.0].providers[k.1]).customEndpoints)
  {
    map k | k in ProviderRows(apps) ::
      EndpointRowsFor(k.0, k.1, MetaOrDefault(apps[k.0].providers[k.1]).customEndpoints)
  }

  function ProviderEndpoints(apps: map<string, ProviderManager>): set<EndpointRow>
  {
    UnionOver(EndpointSets(apps), EndpointSets(apps).Keys)
  }

  /** Some manager holds a provider, so the providers step issues at least one INSERT. */
  predicate HasProvider(c: MultiAppConfig)
  {
    exists a :: a in c.apps && c.apps[a].providers != map[]
  }

  lemma HasProviderRows(c: MultiAppConfig)
    ensures HasProvider(c) <==> ProviderRows(c.apps) != map[]
  {
    if HasProvider(c) {
      var a :| a in c.apps && c.apps[a].providers != map[];
      var id :| id in c.apps[a].providers;
      assert (a, id) in ProviderRows(c.apps);
    }
  }

  /** The endpoint rows the providers step writes for key `(a, id)` are those of that provider's meta. */
  lemma ProviderEndpointsOf(apps: map<string, ProviderManager>, a: string, id: string)
    requires a in apps && id in apps[a].providers
    ensures RowsOf(ProviderEndpoints(apps), a, id) ==
      EndpointRowsFor(a, id, MetaOrDefault(apps[a].providers[id]).customEndpoints)
  {
    var sets := EndpointSets(apps);
    var mine := EndpointRowsFor(a, id, MetaOrDefault(apps[a].providers[id]).customEndpoints);
    assert (a, id) in sets;
    forall e | e in RowsOf(ProviderEndpoints(apps), a, id) ensures e in mine {
      var k :| k in sets.Keys && k in sets && e in sets[k];
      assert k == (a, id);
    }
  }

  /**
   * After the migration a provider reads back as the legacy one under its map
   * key, its endpoints re-keyed by URL and never used, and the pinned and
   * duplication flags at their defaults.
   */
  lemma MigratedProviderReadsBack(apps: map<string, ProviderManager>, a: string, id: string)
    requires a in apps && id in apps[a].providers
    ensures var p := apps[a].providers[id];
      ReadProvider(id, ProviderRows(apps)[(a, id)], EndpointsOf(RowsOf(ProviderEndpoints(apps), a, id))) ==
      p.(id := id, meta := Some(MetaOrDefault(p).(customEndpoints := Reread(MetaOrDefault(p).customEndpoints))),
         isPinned := false, isDuplicated := None, isEditedAfterDuplication := None)
  {
    var p := apps[a].providers[id];
    ProviderEndpointsOf(apps, a, id);
    EndpointRowsRoundTrip(a, id, MetaOrDefault(p).customEndpoints);
  }

  /** After the migration each application has at most one current row: its manager's `current`. */
  lemma MigratedCurrent(apps: map<string, ProviderManager>, a: string, id: string, other: string)
    requires (a, id) in ProviderRows(apps) && ProviderRows(apps)[(a, id)].isCurrent
    requires (a, other) in ProviderRows(apps) && ProviderRows(apps)[(a, other)].isCurrent
    ensures id == other == apps[a].current
  {
  }

  /**
   * A server as `migrate_mcp_servers` stores it under its map key: the INSERT OR
   * REPLACE binds the Claude, Codex, Gemini and Qwen flags only, so the new
   * row's Grok flag is the column default, off.
   */
  function MigratedMcp(id: string, s: McpServer): McpServer
  {
    s.(id := id, apps := s.apps.Set(Grok, false))
  }

  /** The MCP rows: one per entry of the unified map, keyed by the map key. */
  function McpRows(servers: Option<map<string, McpServer>>): (rows: map<string, McpRow>)
    ensures servers.None? ==> rows == map[]
    ensures servers.Some? ==> rows.Keys == servers.value.Keys
    ensures servers.Some? ==> forall id :: id in rows ==>
      var s := ReadMcp(id, rows[id]);
      var legacy := servers.value[id];
      && s.id == id && !s.apps.grok
      && (forall a :: a != Grok ==> s.apps.Get(a) == legacy.apps.Get(a))
      && s == legacy.(id := id, apps := s.apps)
  {
    if servers.None? then map[] else map id | id in servers.value :: McpRowOf(MigratedMcp(id, servers.value[id]))
  }

  /** The prompt rows of the three applications the legacy file kept prompts for. */
  function AllPromptRows(p: PromptRoot): map<(string, string), Prompt>
  {
    PromptRows("claude", p.claude) + PromptRows("codex", p.codex) + PromptRows("gemini", p.gemini)
  }

  /** `m` after the common-config step's writes: one `settings` row per snippet present. */
  function WithSnippets(m: map<string, string>, s: CommonSnippets): map<string, string>
  {
    var a := if s.claude.Some? then m["common_config_claude" := s.claude.value] else m;
    var b := if s.codex.Some? then a["common_config_codex" := s.codex.value] else a;
    if s.gemini.Some? then b["common_config_gemini" := s.gemini.value] else b
  }

  /** The `settings` rows the common-config step writes. */
  function SnippetRows(s: CommonSnippets): (rows: map<string, string>)
    ensures "common_config_claude" in rows <==> s.claude.Some?
    ensures "common_config_codex" in rows <==> s.codex.Some?
    ensures "common_config_gemini" in rows <==> s.gemini.Some?
    ensures s.claude.Some? ==> rows["common_config_claude"] == s.claude.value
    ensures s.codex.Some? ==> rows["common_config_codex"] == s.codex.value
    ensures s.gemini.Some? ==> rows["common_config_gemini"] == s.gemini.value
    ensures |rows| <= 3
  {
    WithSnippets(map[], s)
  }

  /** Writing the snippets into a table adds exactly the snippet rows. */
  lemma WithSnippetsUnion(m: map<string, string>, s: CommonSnippets)
    ensures WithSnippets(m, s) == m + SnippetRows(s)
  {
  }

  lemma UnionAssoc<K, V>(a: map<K, V>, b: map<K, V>, c: map<K, V>)
    ensures (a + b) + c == a + (b + c)
  {
  }

  /** The store holds what it held before, plus every row the five steps write. */
  twostate predicate MigratedInto(db: Database, c: MultiAppConfig)
    reads db
  {
    && db.providers == old(db.providers) + ProviderRows(c.apps)
    && db.endpoints == old(db.endpoints) + ProviderEndpoints(c.apps)
    && db.mcpServers == old(db.mcpServers) + McpRows(c.mcp.servers)
    && db.prompts == old(db.prompts) + AllPromptRows(c.prompts)
    && db.skills == old(db.skills) + c.skills.skills
    && db.repos == SaveRepos(old(db.repos), c.skills.repos)
    && db.settingsRows == old(db.settingsRows) + SnippetRows(c.snippets)
  }

  // ---------------------------------------------------------------------------
  // The steps
  // ---------------------------------------------------------------------------

  /**
   * The INSERTs for the provider under key `k`: its row, then one row per
   * endpoint. `rows` and `sets` are everything the step writes.
   */
  method MigrateProvider(db: Database, k: (string, string), eps: map<string, CustomEndpoint>,
                         ghost rows: map<(string, string), ProviderRow>, ghost sets: map<(string, string), set<EndpointRow>>,
                         ghost base: map<(string, string), ProviderRow>, ghost baseEndpoints: set<EndpointRow>,
                         ghost done: set<(string, string)>, row: ProviderRow)
    requires db.Valid() && k in rows && rows[k] == row && k in sets && sets[k] == EndpointRowsFor(k.0, k.1, eps)
    requires db.providers == base + Restrict(rows, done)
    requires db.endpoints == baseEndpoints + UnionOver(sets, done)
    modifies db
    ensures db.Valid() && db.OnlyProviderTables()
    ensures db.providers == base + Restrict(rows, done + {k})
    ensures db.endpoints == baseEndpoints + UnionOver(sets, done + {k})
  {
    RestrictStep(base, rows, done, k);
    UnionOverStep(sets, done, k);
    db.InsertOrReplaceProvider(k.0, k.1, row);
    db.InsertEndpoints(k.0, k.1, eps);
  }

  /** The loop of `migrate_providers`: each row, then its endpoints, in any order of the keys. */
  method InsertProviderRows(db: Database, rows: map<(string, string), ProviderRow>,
                            eps: map<(string, string), map<string, CustomEndpoint>>,
                            ghost sets: map<(string, string), set<EndpointRow>>)
    requires db.Valid()
    requires forall k :: k in rows ==> k in eps && k in sets && sets[k] == EndpointRowsFor(k.0, k.1, eps[k])
    modifies db
    ensures db.Valid() && db.OnlyProviderTables()
    ensures db.providers == old(db.providers) + rows
    ensures db.endpoints == old(db.endpoints) + UnionOver(sets, rows.Keys)
  {
    RestrictNone(db.providers, rows);
    UnionOverNone(sets);
    var rest := rows.Keys;
    ghost var done: set<(string, string)> := {};
    while rest != {}
      invariant rest <= rows.Keys && done == rows.Keys - rest
      invariant db.Valid() && db.OnlyProviderTables()
      invariant db.providers == old(db.providers) + Restrict(rows, done)
      invariant db.endpoints == old(db.endpoints) + UnionOver(sets, done)
      decreases rest
    {
      var k :| k in rest;
      assert done + {k} == rows.Keys - (rest - {k});
      MigrateProvider(db, k, eps[k], rows, sets, old(db.providers), old(db.endpoints), done, rows[k]);
      rest := rest - {k};
      done := done + {k};
    }
    assert done == rows.Keys;
    RestrictAll(rows);
  }

  /**
   * `migrate_providers`: for every provider of every manager, the INSERT OR
   * REPLACE of its row and then one INSERT per endpoint. `accepted` says whether
   * SQLite accepts the providers INSERT's column list: when it does not, the
   * first INSERT fails and nothing has been written.
   */
  method MigrateProviders(db: Database, apps: map<string, ProviderManager>, accepted: bool)
    returns (r: Result<()>)
    requires db.Valid()
    modifies db
    ensures db.Valid() && db.OnlyProviderTables()
    ensures r.Err? <==> ProviderRows(apps) != map[] && !accepted
    ensures r.Err? ==> db.providers == old(db.providers) && db.endpoints == old(db.endpoints)
    ensures r.Ok? ==> db.providers == old(db.providers) + ProviderRows(apps)
    ensures r.Ok? ==> db.endpoints == old(db.endpoints) + ProviderEndpoints(apps)
  {
    var rows := ProviderRows(apps);
    var sets := EndpointSets(apps);
    if rows != map[] && !accepted {
      return Err(Database("Migrate provider failed: table providers has no such column"));
    }
    var eps := map k | k in rows :: MetaOrDefault(apps[k.0].providers[k.1]).customEndpoints;
    InsertProviderRows(db, rows, eps, sets);
    r := Ok(());
  }

  /** `migrate_mcp_servers`: one INSERT OR REPLACE per entry of the unified map, if there is one. */
  method MigrateMcpServers(db: Database, servers: Option<map<string, McpServer>>)
    requires db.Valid()
    modifies db
    ensures db.Valid() && db.OnlyMcpTable()
    ensures db.mcpServers == old(db.mcpServers) + McpRows(servers)
  {
    if servers.None? {
      return;
    }
    var all := servers.value;
    var rows := McpRows(servers);
    RestrictNone(db.mcpServers, rows);
    var rest := all.Keys;
    ghost var done: set<string> := {};
    while rest != {}
      invariant rest <= all.Keys && done == all.Keys - rest
      invariant db.Valid() && db.OnlyMcpTable()
      invariant db.mcpServers == old(db.mcpServers) + Restrict(rows, done)
      decreases rest
    {
      var id :| id in rest;
      assert done + {id} == all.Keys - (rest - {id});
      assert rows[id] == McpRowOf(MigratedMcp(id, all[id]));
      RestrictStep(old(db.mcpServers), rows, done, id);
      db.SaveMcpServer(MigratedMcp(id, all[id]));
      rest := rest - {id};
      done := done + {id};
    }
    assert done == rows.Keys;
    RestrictAll(rows);
  }

  /** The closure `migrate_app_prompts`: one INSERT OR REPLACE per entry, under the map key. */
  method MigrateAppPrompts(db: Database, app: string, ps: map<string, Prompt>)
    requires db.Valid()
    modifies db
    ensures db.Valid() && db.OnlyPromptTable()
    ensures db.prompts == old(db.prompts) + PromptRows(app, ps)
  {
    db.SavePrompts(app, ps);
  }

  /** `migrate_prompts`: the Claude, Codex and Gemini maps, in that order. */
  method MigratePrompts(db: Database, p: PromptRoot)
    requires db.Valid()
    modifies db
    ensures db.Valid() && db.OnlyPromptTable()
    ensures db.prompts == old(db.prompts) + AllPromptRows(p)
  {
    var a, b, c := PromptRows("claude", p.claude), PromptRows("codex", p.codex), PromptRows("gemini", p.gemini);
    UnionAssoc(old(db.prompts), a, b);
    UnionAssoc(old(db.prompts), a + b, c);
    MigrateAppPrompts(db, "claude", p.claude);
    MigrateAppPrompts(db, "codex", p.codex);
    MigrateAppPrompts(db, "gemini", p.gemini);
  }

  /** `migrate_skills`: the skill states by key, then the repositories in list order. */
  method MigrateSkills(db: Database, s: SkillStore)
    requires db.Valid()
    modifies db
    ensures db.Valid() && db.OnlySkillTables()
    ensures db.skills == old(db.skills) + s.skills
    ensures db.repos == SaveRepos(old(db.repos), s.repos)
  {
    RestrictNone(db.skills, s.skills);
    var rest := s.skills.Keys;
    ghost var done: set<string> := {};
    while rest != {}
      invariant rest <= s.skills.Keys && done == s.skills.Keys - rest
      invariant db.Valid() && db.OnlySkillTables() && db.repos == old(db.repos)
      invariant db.skills == old(db.skills) + Restrict(s.skills, done)
      decreases rest
    {
      var k :| k in rest;
      assert done + {k} == s.skills.Keys - (rest - {k});
      RestrictStep(old(db.skills), s.skills, done, k);
      db.UpdateSkillState(k, s.skills[k]);
      rest := rest - {k};
      done := done + {k};
    }
    assert done == s.skills.Keys;
    RestrictAll(s.skills);
    for i := 0 to |s.repos|
      invariant db.Valid() && db.OnlySkillTables() && db.skills == old(db.skills) + s.skills
      invariant db.repos == SaveRepos(old(db.repos), s.repos[..i])
    {
      SaveReposSnoc(old(db.repos), s.repos[..i], s.repos[i]);
      assert s.repos[..i + 1] == s.repos[..i] + [s.repos[i]];
      db.SaveSkillRepo(s.repos[i]);
    }
    assert s.repos[..|s.repos|] == s.repos;
  }

  /** `migrate_common_config`: one `settings` row per snippet present. */
  method MigrateCommonConfig(db: Database, s: CommonSnippets)
    requires db.Valid()
    modifies db
    ensures db.Valid() && db.OnlySettingsTable()
    ensures db.settingsRows == old(db.settingsRows) + SnippetRows(s)
  {
    WithSnippetsUnion(db.settingsRows, s);
    if s.claude.Some? {
      db.SetSetting("common_config_claude", s.claude.value);
    }
    if s.codex.Some? {
      db.SetSetting("common_config_codex", s.codex.value);
    }
    if s.gemini.Some? {
      db.SetSetting("common_config_gemini", s.gemini.value);
    }
  }

  /** `migrate_from_json_tx`: the five steps in order, stopping at the first error. */
  method MigrateFromJsonTx(db: Database, c: MultiAppConfig, accepted: bool) returns (r: Result<()>)
    requires db.Valid()
    modifies db
    ensures db.Valid()
    ensures r.Err? <==> HasProvider(c) && !accepted
    ensures r.Ok? ==> MigratedInto(db, c)
  {
    HasProviderRows(c);
    r := MigrateProviders(db, c.apps, accepted);
    if r.Err? {
      return;
    }
    MigrateMcpServers(db, c.mcp.servers);
    MigratePrompts(db, c.prompts);
    MigrateSkills(db, c.skills);
    MigrateCommonConfig(db, c.snippets);
  }

  /**
   * `migrate_from_json`, with the providers INSERT naming `columns`: the steps
   * run in one transaction, which commits on success and rolls back on error.
   */
  method MigrateFromJsonWith(db: Database, c: MultiAppConfig, columns: seq<string>) returns (r: Result<()>)
    requires db.Valid()
    modifies db
    ensures db.Valid()
    ensures r.Err? <==> HasProvider(c) && !ColumnsExist(columns, V1Tables[0])
    ensures r.Err? ==> db.NoTableChanged()
    ensures r.Ok? ==> MigratedInto(db, c)
  {
    var providers, endpoints, mcpServers := db.providers, db.endpoints, db.mcpServers;
    var prompts, skills, repos, settingsRows := db.prompts, db.skills, db.repos, db.settingsRows;
    r := MigrateFromJsonTx(db, c, ColumnsExist(columns, V1Tables[0]));
    if r.Err? {
      db.providers, db.endpoints, db.mcpServers := providers, endpoints, mcpServers;
      db.prompts, db.skills, db.repos, db.settingsRows := prompts, skills, repos, settingsRows;
    }
  }

  /** `migrate_from_json` as written: any provider at all makes it fail, and nothing is written. */
  method MigrateFromJsonAsWritten(db: Database, c: MultiAppConfig) returns (r: Result<()>)
    requires db.Valid()
    modifies db
    ensures db.Valid()
    ensures r.Err? <==> HasProvider(c)
    ensures r.Err? ==> db.NoTableChanged()
    ensures r.Ok? ==> MigratedInto(db, c)
  {
    AsWrittenInsertRejected();
    r := MigrateFromJsonWith(db, c, ProviderInsertColumnsAsWritten);
  }

  /** `migrate_from_json` with the thirteen-column INSERT: it always commits every row. */
  method MigrateFromJson(db: Database, c: MultiAppConfig) returns (r: Result<()>)
    requires db.Valid()
    modifies db
    ensures db.Valid()
    ensures r.Ok? && MigratedInto(db, c)
  {
    CorrectedInsertAccepted();
    r := MigrateFromJsonWith(db, c, ProviderInsertColumns);
  }

  /**
   * `migrate_from_json_dry_run` as written: the steps on a fresh in-memory store
   * whose tables are the version 1 ones; only the verdict is returned.
   */
  method MigrateDryRunAsWritten(c: MultiAppConfig) returns (r: Result<()>)
    ensures r.Err? <==> HasProvider(c)
  {
    var scratch := new Database();
    AsWrittenInsertRejected();
    r := MigrateFromJsonTx(scratch, c, ColumnsExist(ProviderInsertColumnsAsWritten, V1Tables[0]));
  }

  /** The dry run with the thirteen-column INSERT accepts every legacy configuration. */
  method MigrateDryRun(c: MultiAppConfig) returns (r: Result<()>)
    ensures r.Ok?
  {
    var scratch := new Database();
    CorrectedInsertAccepted();
    r := MigrateFromJsonTx(scratch, c, ColumnsExist(ProviderInsertColumns, V1Tables[0]));
  }
}
