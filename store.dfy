/**
 * The relational store (database/dao/providers.rs, database/dao/mcp.rs,
 * database/dao/skills.rs): one object holding the rows of each table, keyed
 * by the table's primary key. JSON columns are kept as the value they were
 * written from, or as text serde cannot parse (a row imported from a SQL
 * file can hold anything); reads fall back to a default for the latter.
 */
module Store {
  import opened Wrappers
  import opened Values
  import opened Sorting
  import opened Providers
  import opened Records
  import Collections
  import Schema
  import Text

  /** A JSON text column as the reader sees it. */
  datatype Stored<T> = Parsed(value: T) | Garbled(text: string)
  {
    /** `serde_json::from_str(..).unwrap_or(fallback)` */
    function Or(fallback: T): (r: T)
      ensures Parsed? ==> r == value
      ensures Garbled? ==> r == fallback
    {
      if Parsed? then value else fallback
    }
  }

  /** A `providers` row, without its key columns `(id, app_type)`. */
  datatype ProviderRow = ProviderRow(
    name: string,
    settings: Stored<Json>,
    websiteUrl: Option<string>,
    category: Option<string>,
    createdAt: Option<int>,
    sortIndex: Option<nat>,
    notes: Option<string>,
    icon: Option<string>,
    iconColor: Option<string>,
    meta: Stored<ProviderMeta>,
    isCurrent: bool)

  /**
   * A `provider_endpoints` row. The autoincrement `id` column is not kept, so
   * two rows that agree on every other column are one row here.
   */
  datatype EndpointRow = EndpointRow(providerId: string, app: string, url: string, addedAt: Option<int>)

  /** An `mcp_servers` row without its key column `id`. */
  datatype McpRow = McpRow(
    name: string,
    config: Stored<Json>,
    description: Option<string>,
    homepage: Option<string>,
    docs: Option<string>,
    tags: Stored<seq<string>>,
    apps: McpApps)

  /** A `skill_repos` row without its key columns `(owner, name)`. */
  datatype RepoRow = RepoRow(branch: string, enabled: bool)

  /** The rows of every table at one moment: what a file copy of the store holds. */
  datatype Tables = Tables(
    providers: map<(string, string), ProviderRow>,
    endpoints: set<EndpointRow>,
    mcpServers: map<string, McpRow>,
    prompts: map<(string, string), Prompt>,
    skills: map<string, SkillState>,
    repos: map<(string, string), RepoRow>,
    settingsRows: map<string, string>)

  /** The tables of a store that has just been created. */
  const NoTables: Tables := Tables(map[], {}, map[], map[], map[], map[], map[])

  // ---------------------------------------------------------------------------
  // Provider rows as the data-access code writes and reads them
  // ---------------------------------------------------------------------------

  /** The row `save_provider` writes: endpoints are taken out of the meta blob. */
  function RowOf(p: Provider, isCurrent: bool): (row: ProviderRow)
    ensures row.meta.Parsed? && row.meta.value.customEndpoints == map[]
    ensures row.meta.value == WithoutEndpoints(MetaOrDefault(p))
    ensures row.settings == Parsed(p.settingsConfig) && row.isCurrent == isCurrent
  {
    ProviderRow(p.name, Parsed(p.settingsConfig), p.websiteUrl, p.category, p.createdAt,
                p.sortIndex, p.notes, p.icon, p.iconColor,
                Parsed(WithoutEndpoints(MetaOrDefault(p))), isCurrent)
  }

  /** The endpoint rows a new provider's meta is split into, one per URL key. */
  function NewEndpointRows(app: string, p: Provider): (rows: set<EndpointRow>)
    ensures forall e :: e in rows <==>
      e.providerId == p.id && e.app == app && e.url in MetaOrDefault(p).customEndpoints &&
      e.addedAt == Some(MetaOrDefault(p).customEndpoints[e.url].addedAt)
  {
    EndpointRowsFor(app, p.id, MetaOrDefault(p).customEndpoints)
  }

  /** One `provider_endpoints` row per entry of `eps`, for provider `(app, id)`. */
  function EndpointRowsFor(app: string, id: string, eps: map<string, CustomEndpoint>): (rows: set<EndpointRow>)
    ensures forall e :: e in rows <==>
      e.providerId == id && e.app == app && e.url in eps && e.addedAt == Some(eps[e.url].addedAt)
  {
    set url | url in eps :: EndpointRow(id, app, url, Some(eps[url].addedAt))
  }

  /** `added_at` order: SQLite sorts NULL before every number. */
  predicate AddedLe(a: Option<int>, b: Option<int>)
  {
    a.None? || (b.Some? && a.value <= b.value)
  }

  function AddedPart(a: Option<int>): KeyPart
  {
    if a.Some? then KInt(a.value) else KNull
  }

  /** `ORDER BY added_at ASC, url ASC` */
  function EndpointKey(e: EndpointRow): Key
  {
    [AddedPart(e.addedAt), KStr(e.url)]
  }

  lemma EndpointKeyOrder(e: EndpointRow, f: EndpointRow)
    requires KeyLe(EndpointKey(e), EndpointKey(f))
    ensures AddedLe(e.addedAt, f.addedAt)
  {
    KeyLeHead(EndpointKey(e), EndpointKey(f));
  }

  /** The endpoint rows of provider `(app, id)`. */
  function RowsOf(rows: set<EndpointRow>, app: string, id: string): (r: set<EndpointRow>)
    ensures forall e :: e in r <==> e in rows && e.app == app && e.providerId == id
  {
    set e | e in rows && e.app == app && e.providerId == id
  }

  /** The rows left after deleting every row of provider `(app, id)` for `url`. */
  function WithoutEndpoint(rows: set<EndpointRow>, app: string, id: string, url: string): (r: set<EndpointRow>)
    ensures forall e :: e in r <==> e in rows && !(e.providerId == id && e.app == app && e.url == url)
  {
    set e | e in rows && !(e.providerId == id && e.app == app && e.url == url)
  }

  function Urls(rows: set<EndpointRow>): set<string>
  {
    set e | e in rows :: e.url
  }

  /** `v` is the `added_at` of the row for `url` that the read keeps: the last in query order. */
  ghost predicate IsLatest(rows: set<EndpointRow>, url: string, v: Option<int>)
  {
    (exists e :: e in rows && e.url == url && e.addedAt == v) &&
    forall e :: e in rows && e.url == url ==> AddedLe(e.addedAt, v)
  }

  lemma {:induction false} LatestExists(rows: set<EndpointRow>, url: string)
    requires url in Urls(rows)
    ensures exists v :: IsLatest(rows, url, v)
    decreases rows
  {
    var e :| e in rows && e.url == url;
    var rest := rows - {e};
    if url in Urls(rest) {
      LatestExists(rest, url);
      var v :| IsLatest(rest, url, v);
      if AddedLe(e.addedAt, v) {
        assert IsLatest(rows, url, v);
      } else {
        assert IsLatest(rows, url, e.addedAt);
      }
    } else {
      assert IsLatest(rows, url, e.addedAt);
    }
  }

  lemma LatestUnique(rows: set<EndpointRow>, url: string, v: Option<int>, w: Option<int>)
    requires IsLatest(rows, url, v) && IsLatest(rows, url, w)
    ensures v == w
  {
  }

  ghost function Latest(rows: set<EndpointRow>, url: string): Option<int>
    requires url in Urls(rows)
  {
    LatestExists(rows, url);
    var v :| IsLatest(rows, url, v);
    v
  }

  /**
   * The `custom_endpoints` map a provider's rows read back as: one entry per URL,
   * whose time is that of the URL's latest row (NULL reading as 0), never used.
   */
  ghost function EndpointsOf(rows: set<EndpointRow>): map<string, CustomEndpoint>
  {
    map url | url in Urls(rows) :: CustomEndpoint(url, Latest(rows, url).UnwrapOr(0), None)
  }

  /** The map the endpoint loop builds from the latest time of each URL. */
  function Entries(latest: map<string, Option<int>>): map<string, CustomEndpoint>
  {
    map u | u in latest :: CustomEndpoint(u, latest[u].UnwrapOr(0), None)
  }

  lemma EntriesUpdate(latest: map<string, Option<int>>, u: string, v: Option<int>)
    ensures Entries(latest[u := v]) == Entries(latest)[u := CustomEndpoint(u, v.UnwrapOr(0), None)]
  {
  }

  /** One more row, no earlier than any row seen so far, becomes the latest for its URL. */
  lemma LatestStep(seen: set<EndpointRow>, latest: map<string, Option<int>>, e: EndpointRow)
    returns (next: map<string, Option<int>>)
    requires latest.Keys == Urls(seen)
    requires forall u :: u in latest ==> IsLatest(seen, u, latest[u])
    requires forall f :: f in seen ==> AddedLe(f.addedAt, e.addedAt)
    ensures next == latest[e.url := e.addedAt]
    ensures next.Keys == Urls(seen + {e})
    ensures forall u :: u in next ==> IsLatest(seen + {e}, u, next[u])
  {
    next := latest[e.url := e.addedAt];
    forall u | u in next
      ensures IsLatest(seen + {e}, u, next[u])
    {
      if u == e.url {
        assert e in seen + {e};
      } else {
        var w :| w in seen && w.url == u && w.addedAt == latest[u];
        assert w in seen + {e};
      }
    }
  }

  /** The loop's map of latest times, once it has seen every row, is the one `EndpointsOf` reads. */
  lemma LatestAll(rows: set<EndpointRow>, latest: map<string, Option<int>>)
    requires latest.Keys == Urls(rows)
    requires forall u :: u in latest ==> IsLatest(rows, u, latest[u])
    ensures Entries(latest) == EndpointsOf(rows)
  {
    forall u | u in latest
      ensures latest[u] == Latest(rows, u)
    {
      LatestUnique(rows, u, latest[u], Latest(rows, u));
    }
  }

  /**
   * A provider as `get_all_providers` builds it from its row: unparsable settings
   * read as null and unparsable meta as the default; the store has no column for
   * the pinned and duplication flags, so they read as their defaults.
   */
  function ReadProvider(id: string, row: ProviderRow, eps: map<string, CustomEndpoint>): (p: Provider)
    ensures p.id == id && p.meta.Some? && p.meta.value.customEndpoints == eps
    ensures row.settings.Garbled? ==> p.settingsConfig == JNull
    ensures row.meta.Garbled? ==> p.meta.value == DefaultMeta.(customEndpoints := eps)
  {
    Provider(id, row.name, row.settings.Or(JNull), row.websiteUrl, row.category, row.createdAt,
             row.sortIndex, row.notes, Some(row.meta.Or(DefaultMeta).(customEndpoints := eps)),
             row.icon, row.iconColor, false, None, None)
  }

  /** `ORDER BY COALESCE(sort_index, 999999), created_at ASC, id ASC` */
  function ProviderKey(p: Provider): Key
  {
    [KInt(p.sortIndex.UnwrapOr(999999)), AddedPart(p.createdAt), KStr(p.id)]
  }

  /** `providers.get(id)` on the map `get_all_providers` returns: the provider with that id, if listed. */
  function FindById(ps: seq<Provider>, id: string): Option<Provider>
  {
    Collections.FindFirst(ps, ProviderId, id)
  }

  function ProviderId(p: Provider): string
  {
    p.id
  }

  function RowKey(rows: map<(string, string), ProviderRow>, app: string, id: string): Key
  {
    if (app, id) in rows then
      [KInt(rows[(app, id)].sortIndex.UnwrapOr(999999)), AddedPart(rows[(app, id)].createdAt), KStr(id)]
    else [KStr(id)]
  }

  /** An MCP server as `get_all_mcp_servers` builds it from its row. */
  function ReadMcp(id: string, row: McpRow): (s: McpServer)
    ensures s.id == id && s.apps == row.apps
    ensures row.config.Garbled? ==> s.server == JNull
    ensures row.tags.Garbled? ==> s.tags == []
  {
    McpServer(id, row.name, row.config.Or(JNull), row.apps, row.description, row.homepage,
              row.docs, row.tags.Or([]))
  }

  /** The row `save_mcp_server` writes. */
  function McpRowOf(s: McpServer): McpRow
  {
    McpRow(s.name, Parsed(s.server), s.description, s.homepage, s.docs, Parsed(s.tags), s.apps)
  }

  /** The MCP columns round-trip: reading back a written server gives the server. */
  lemma McpRoundTrip(s: McpServer)
    ensures ReadMcp(s.id, McpRowOf(s)) == s
  {
  }

  /** The columns `get_all_mcp_servers` selects and `save_mcp_server` inserts, in order. */
  const McpDaoColumns: seq<string> := [
    "id", "name", "server_config", "description", "homepage", "docs", "tags",
    "enabled_claude", "enabled_codex", "enabled_gemini", "enabled_grok", "enabled_qwen"]

  /** The Grok flag column, declared like the other four flags. */
  const GrokFlagColumn := Schema.Column("enabled_grok", "BOOLEAN NOT NULL DEFAULT 0")

  /**
   * The `mcp_servers` table the MCP rows of `Database` stand for: the version 1
   * table with the Grok flag column appended.
   */
  const McpTable := Schema.Table("mcp_servers", Schema.V1McpColumns + [GrokFlagColumn])

  /** The `mcp_servers` table a version 1 store is created with has no `enabled_grok` column. */
  lemma V1McpLacksGrokFlag()
    ensures Schema.V1Tables[2].name == "mcp_servers"
    ensures !Schema.ColumnIn(Schema.V1Tables[2].columns, "enabled_grok")
  {
    Schema.V1McpTable();
    Schema.V1McpColumnsLackGrokFlag();
  }

  /** As written, SQLite rejects both MCP statements on a version 1 store: they name `enabled_grok`. */
  lemma McpDaoRejectedAsWritten()
    ensures !Schema.ColumnsExist(McpDaoColumns, Schema.V1Tables[2])
  {
    V1McpLacksGrokFlag();
    assert McpDaoColumns[10] == "enabled_grok";
    Schema.MissingColumnRejects(McpDaoColumns, Schema.V1Tables[2], 10);
  }

  /** The corrected `mcp_servers` table has every column both MCP statements name. */
  lemma McpTableHasDaoColumns()
    ensures Schema.ColumnsExist(McpDaoColumns, McpTable)
  {
    var cols := McpTable.columns;
    assert |cols| == 12;
    forall i | 0 <= i < 12 ensures Schema.ColumnIn(cols, McpDaoColumns[i]) {
      if i < 10 {
        Schema.ExactColumn(cols, i, McpDaoColumns[i]);
      } else if i == 10 {
        Schema.ExactColumn(cols, 11, McpDaoColumns[i]);
      } else {
        Schema.ExactColumn(cols, 10, McpDaoColumns[i]);
      }
    }
  }

  /**
   * The corrected `mcp_servers` table is the version 1 table with the Grok flag
   * appended, and both MCP statements are accepted on it.
   */
  lemma McpDaoAcceptedCorrected()
    ensures McpTable.name == Schema.V1Tables[2].name
    ensures McpTable.columns == Schema.V1Tables[2].columns + [Schema.Column("enabled_grok", "BOOLEAN NOT NULL DEFAULT 0")]
    ensures Schema.ColumnsExist(McpDaoColumns, McpTable)
  {
    Schema.V1McpTable();
    McpTableHasDaoColumns();
  }

  /** `ORDER BY name ASC, id ASC` */
  function McpKey(s: McpServer): Key
  {
    [KStr(s.name), KStr(s.id)]
  }

  /** `ORDER BY owner ASC, name ASC` */
  function RepoKey(r: SkillRepo): Key
  {
    [KStr(r.owner), KStr(r.name)]
  }

  /** `ORDER BY key ASC` */
  function SkillKey(e: (string, SkillState)): Key
  {
    [KStr(e.0)]
  }

  /** A provider's endpoints as they read back right after it was first saved. */
  function Reread(eps: map<string, CustomEndpoint>): (r: map<string, CustomEndpoint>)
    ensures r.Keys == eps.Keys
    ensures forall u :: u in r ==> r[u] == CustomEndpoint(u, eps[u].addedAt, None)
  {
    map u | u in eps :: CustomEndpoint(u, eps[u].addedAt, None)
  }

  /**
   * Saving a new provider and reading it back gives the provider with its
   * endpoints re-keyed by URL and never used, and the pinned and duplication
   * flags at their defaults.
   */
  lemma {:induction false} NewProviderRoundTrip(app: string, p: Provider, cur: bool)
    ensures ReadProvider(p.id, RowOf(p, cur), EndpointsOf(NewEndpointRows(app, p))) ==
      p.(meta := Some(MetaOrDefault(p).(customEndpoints := Reread(MetaOrDefault(p).customEndpoints))),
         isPinned := false, isDuplicated := None, isEditedAfterDuplication := None)
  {
    EndpointRowsRoundTrip(app, p.id, MetaOrDefault(p).customEndpoints);
  }

  /** Endpoint rows written from a map read back as that map, re-keyed by URL and never used. */
  lemma EndpointRowsRoundTrip(app: string, id: string, eps: map<string, CustomEndpoint>)
    ensures EndpointsOf(EndpointRowsFor(app, id, eps)) == Reread(eps)
  {
    var rows := EndpointRowsFor(app, id, eps);
    assert Urls(rows) == eps.Keys by {
      forall u | u in eps ensures u in Urls(rows) {
        assert EndpointRow(id, app, u, Some(eps[u].addedAt)) in rows;
      }
    }
    forall u | u in eps ensures Latest(rows, u) == Some(eps[u].addedAt) {
      assert IsLatest(rows, u, Some(eps[u].addedAt)) by {
        assert EndpointRow(id, app, u, Some(eps[u].addedAt)) in rows;
      }
      LatestUnique(rows, u, Latest(rows, u), Some(eps[u].addedAt));
    }
  }

  class Database {
    /** `providers`, keyed by `(app_type, id)`. */
    var providers: map<(string, string), ProviderRow>
    /** `provider_endpoints` */
    var endpoints: set<EndpointRow>
    /** `mcp_servers`, keyed by `id`. */
    var mcpServers: map<string, McpRow>
    /** `prompts`, keyed by `(app_type, id)`. */
    var prompts: map<(string, string), Prompt>
    /** `skills`, keyed by `key`. */
    var skills: map<string, SkillState>
    /** `skill_repos`, keyed by `(owner, name)`. */
    var repos: map<(string, string), RepoRow>
    /** `settings`, keyed by `key`. */
    var settingsRows: map<string, string>

    /** The foreign key: every endpoint row belongs to a stored provider. */
    ghost predicate Valid()
      reads this
    {
      forall e :: e in endpoints ==> (e.app, e.providerId) in providers
    }

    /** An empty store with every table created. */
    constructor ()
      ensures Valid()
      ensures providers == map[] && endpoints == {} && mcpServers == map[] && prompts == map[]
      ensures skills == map[] && repos == map[] && settingsRows == map[]
    {
      providers := map[];
      endpoints := {};
      mcpServers := map[];
      prompts := map[];
      skills := map[];
      repos := map[];
      settingsRows := map[];
    }

    /** Every table's rows. */
    function Contents(): (t: Tables)
      reads this
      ensures t.providers == providers && t.endpoints == endpoints && t.mcpServers == mcpServers
      ensures t.prompts == prompts && t.skills == skills && t.repos == repos && t.settingsRows == settingsRows
    {
      Tables(providers, endpoints, mcpServers, prompts, skills, repos, settingsRows)
    }

    /** The backup API copying another store page by page over this one: every table is replaced. */
    method Overwrite(t: Tables)
      modifies this
      ensures Contents() == t
    {
      providers, endpoints, mcpServers := t.providers, t.endpoints, t.mcpServers;
      prompts, skills, repos, settingsRows := t.prompts, t.skills, t.repos, t.settingsRows;
    }

    /** No table changed. */
    twostate predicate NoTableChanged()
      reads this
    {
      providers == old(providers) && endpoints == old(endpoints) && mcpServers == old(mcpServers) &&
      prompts == old(prompts) && skills == old(skills) && repos == old(repos) && settingsRows == old(settingsRows)
    }

    /** Only the provider tables changed. */
    twostate predicate OnlyProviderTables()
      reads this
    {
      mcpServers == old(mcpServers) && prompts == old(prompts) && skills == old(skills) &&
      repos == old(repos) && settingsRows == old(settingsRows)
    }

    /** Only the MCP table changed. */
    twostate predicate OnlyMcpTable()
      reads this
    {
      providers == old(providers) && endpoints == old(endpoints) && prompts == old(prompts) &&
      skills == old(skills) && repos == old(repos) && settingsRows == old(settingsRows)
    }

    /** Only the skill tables changed. */
    twostate predicate OnlySkillTables()
      reads this
    {
      providers == old(providers) && endpoints == old(endpoints) && prompts == old(prompts) &&
      mcpServers == old(mcpServers) && settingsRows == old(settingsRows)
    }

    /** Only the prompts table changed. */
    twostate predicate OnlyPromptTable()
      reads this
    {
      providers == old(providers) && endpoints == old(endpoints) && mcpServers == old(mcpServers) &&
      skills == old(skills) && repos == old(repos) && settingsRows == old(settingsRows)
    }

    /** Only the settings table changed. */
    twostate predicate OnlySettingsTable()
      reads this
    {
      providers == old(providers) && endpoints == old(endpoints) && mcpServers == old(mcpServers) &&
      prompts == old(prompts) && skills == old(skills) && repos == old(repos)
    }

    /** `set_setting(key, value)`: `INSERT OR REPLACE INTO settings`. */
    method SetSetting(key: string, value: string)
      modifies this
      ensures OnlySettingsTable()
      ensures settingsRows == old(settingsRows)[key := value]
    {
      settingsRows := settingsRows[key := value];
    }

    /** The ids of the providers stored for `app`. */
    function AppIds(app: string): (ids: set<string>)
      reads this
      ensures forall id :: id in ids <==> (app, id) in providers
    {
      set k | k in providers && k.0 == app :: k.1
    }

    /** The ids of `app`'s rows flagged `is_current`. */
    function CurrentIds(app: string): (ids: set<string>)
      reads this
      ensures forall id :: id in ids <==> (app, id) in providers && providers[(app, id)].isCurrent
    {
      set k | k in providers && k.0 == app && providers[k].isCurrent :: k.1
    }

    /** No stored meta blob holds endpoints. */
    ghost predicate MetaBlobsClean()
      reads this
    {
      forall k :: k in providers && providers[k].meta.Parsed? ==> providers[k].meta.value.customEndpoints == map[]
    }

    /** The provider `(app, id)` as `get_all_providers` returns it. */
    ghost function ProviderOf(app: string, id: string): Option<Provider>
      reads this
    {
      if (app, id) in providers then
        Some(ReadProvider(id, providers[(app, id)], EndpointsOf(RowsOf(endpoints, app, id))))
      else None
    }

    /** The MCP server `id` as `get_all_mcp_servers` returns it. */
    function McpOf(id: string): Option<McpServer>
      reads this
    {
      if id in mcpServers then Some(ReadMcp(id, mcpServers[id])) else None
    }

    // -------------------------------------------------------------------------
    // providers.rs
    // -------------------------------------------------------------------------

    /**
     * The endpoint query of `get_all_providers` for one provider: its rows in
     * `added_at, url` order, inserted into a map so that a later row for the same
     * URL replaces an earlier one.
     */
    method ReadEndpoints(app: string, id: string) returns (m: map<string, CustomEndpoint>)
      ensures m == EndpointsOf(RowsOf(endpoints, app, id))
    {
      var mine := RowsOf(endpoints, app, id);
      var ordered := Ordered(mine, EndpointKey);
      m := map[];
      ghost var latest: map<string, Option<int>> := map[];
      ghost var seen: set<EndpointRow> := {};
      for i := 0 to |ordered|
        invariant forall f :: f in seen <==> f in ordered[..i]
        invariant latest.Keys == Urls(seen)
        invariant forall u :: u in latest ==> IsLatest(seen, u, latest[u])
        invariant m == Entries(latest)
      {
        var e := ordered[i];
        assert forall f :: f in seen ==> AddedLe(f.addedAt, e.addedAt) by {
          forall f | f in seen
            ensures AddedLe(f.addedAt, e.addedAt)
          {
            var k :| 0 <= k < i && ordered[k] == f;
            EndpointKeyOrder(f, e);
          }
        }
        EntriesUpdate(latest, e.url, e.addedAt);
        latest := LatestStep(seen, latest, e);
        m := m[e.url := CustomEndpoint(e.url, e.addedAt.UnwrapOr(0), None)];
        assert forall f :: f in seen + {e} <==> f in ordered[..i + 1] by {
          assert ordered[..i + 1] == ordered[..i] + [e];
        }
        seen := seen + {e};
      }
      assert seen == mine by {
        assert ordered[..|ordered|] == ordered;
      }
      LatestAll(mine, latest);
    }

    /**
     * `get_all_providers(app)`: every provider of `app`, each once, as
     * `ProviderOf` describes it, in `sort_index` (missing = 999999), `created_at`,
     * `id` order.
     */
    method GetAllProviders(app: string) returns (r: seq<Provider>)
      ensures SortedBy(r, ProviderKey)
      ensures forall i, j :: 0 <= i < j < |r| ==> r[i].id != r[j].id
      ensures forall id :: (exists i :: 0 <= i < |r| && r[i].id == id) <==> (app, id) in providers
      ensures forall i :: 0 <= i < |r| ==> ProviderOf(app, r[i].id) == Some(r[i])
    {
      var rows := providers;
      var key := (id: string) => RowKey(rows, app, id);
      var ordered := Ordered(AppIds(app), key);
      r := [];
      for i := 0 to |ordered|
        invariant |r| == i
        invariant forall k :: 0 <= k < i ==> r[k].id == ordered[k] && ProviderOf(app, ordered[k]) == Some(r[k])
        invariant forall k :: 0 <= k < i ==> ProviderKey(r[k]) == key(ordered[k])
      {
        var id := ordered[i];
        var eps := ReadEndpoints(app, id);
        r := r + [ReadProvider(id, providers[(app, id)], eps)];
      }
      forall id | (app, id) in providers
        ensures exists i :: 0 <= i < |r| && r[i].id == id
      {
        var i :| 0 <= i < |ordered| && ordered[i] == id;
        assert r[i].id == id;
      }
    }

    /**
     * `get_current_provider(app)`: `LIMIT 1` without `ORDER BY`, so any row of
     * `app` flagged current; None exactly when there is none.
     */
    method GetCurrentProvider(app: string) returns (r: Option<string>)
      ensures r.Some? ==> r.value in CurrentIds(app)
      ensures r.None? <==> CurrentIds(app) == {}
    {
      if exists k :: k in providers && k.0 == app && providers[k].isCurrent {
        var k :| k in providers && k.0 == app && providers[k].isCurrent;
        r := Some(k.1);
      } else {
        r := None;
      }
    }

    /**
     * `save_provider(app, p)`: an UPDATE of an existing `(id, app)` row that keeps
     * its `is_current` and leaves its endpoint rows alone, or an INSERT with
     * `is_current = false` plus one endpoint row per meta endpoint.
     */
    method SaveProvider(app: string, p: Provider)
      requires Valid()
      modifies this
      ensures Valid() && OnlyProviderTables()
      ensures (app, p.id) in old(providers) ==>
        providers == old(providers)[(app, p.id) := RowOf(p, old(providers)[(app, p.id)].isCurrent)] &&
        endpoints == old(endpoints)
      ensures (app, p.id) !in old(providers) ==>
        providers == old(providers)[(app, p.id) := RowOf(p, false)] &&
        endpoints == old(endpoints) + NewEndpointRows(app, p)
      ensures old(MetaBlobsClean()) ==> MetaBlobsClean()
    {
      var key := (app, p.id);
      if key in providers {
        InsertOrReplaceProvider(app, p.id, RowOf(p, providers[key].isCurrent));
      } else {
        InsertOrReplaceProvider(app, p.id, RowOf(p, false));
        InsertEndpoints(app, p.id, MetaOrDefault(p).customEndpoints);
      }
    }

    /** `INSERT OR REPLACE INTO providers`: the row under `(app, id)` becomes `row`. */
    method InsertOrReplaceProvider(app: string, id: string, row: ProviderRow)
      requires Valid()
      modifies this`providers
      ensures Valid()
      ensures providers == old(providers)[(app, id) := row]
    {
      providers := providers[(app, id) := row];
    }

    /** One `INSERT INTO provider_endpoints` per entry of `eps`, for an existing provider. */
    method InsertEndpoints(app: string, id: string, eps: map<string, CustomEndpoint>)
      requires Valid() && (app, id) in providers
      modifies this`endpoints
      ensures Valid()
      ensures endpoints == old(endpoints) + EndpointRowsFor(app, id, eps)
    {
      var rest := eps.Keys;
      while rest != {}
        invariant rest <= eps.Keys
        invariant Valid()
        invariant endpoints == old(endpoints) +
          set url | url in eps.Keys - rest :: EndpointRow(id, app, url, Some(eps[url].addedAt))
        decreases rest
      {
        var url :| url in rest;
        endpoints := endpoints + {EndpointRow(id, app, url, Some(eps[url].addedAt))};
        rest := rest - {url};
      }
    }

    /**
     * `set_current_provider(app, id)`: every row of `app` is reset and then the
     * one matching `id` is set; other applications' rows are untouched.
     */
    method SetCurrentProvider(app: string, id: string)
      requires Valid()
      modifies this
      ensures Valid() && OnlyProviderTables() && endpoints == old(endpoints)
      ensures providers.Keys == old(providers).Keys
      ensures forall k :: k in providers ==>
        providers[k] == old(providers)[k].(isCurrent := if k.0 == app then k.1 == id else old(providers)[k].isCurrent)
    {
      providers := map k | k in providers ::
        if k.0 == app then providers[k].(isCurrent := k.1 == id) else providers[k];
    }

    /** `delete_provider(app, id)`: the row goes, and its endpoints with it (`ON DELETE CASCADE`). */
    method DeleteProvider(app: string, id: string)
      requires Valid()
      modifies this
      ensures Valid() && OnlyProviderTables()
      ensures providers == old(providers) - {(app, id)}
      ensures endpoints == old(endpoints) - RowsOf(old(endpoints), app, id)
    {
      providers := providers - {(app, id)};
      endpoints := endpoints - RowsOf(endpoints, app, id);
    }

    /**
     * `add_custom_endpoint(app, provider, url)` at time `now`: one more row; a
     * provider that is not stored violates the foreign key.
     */
    method AddCustomEndpoint(app: string, providerId: string, url: string, now: int) returns (r: Result<()>)
      requires Valid()
      modifies this
      ensures Valid() && OnlyProviderTables() && providers == old(providers)
      ensures r.Ok? <==> (app, providerId) in providers
      ensures r.Ok? ==> endpoints == old(endpoints) + {EndpointRow(providerId, app, url, Some(now))}
      ensures r.Err? ==> r.error.Database? && endpoints == old(endpoints)
    {
      if (app, providerId) in providers {
        endpoints := endpoints + {EndpointRow(providerId, app, url, Some(now))};
        r := Ok(());
      } else {
        r := Err(Database("FOREIGN KEY constraint failed"));
      }
    }

    /** `remove_custom_endpoint(app, provider, url)`: every row matching all three goes. */
    method RemoveCustomEndpoint(app: string, providerId: string, url: string)
      requires Valid()
      modifies this
      ensures Valid() && OnlyProviderTables() && providers == old(providers)
      ensures endpoints == WithoutEndpoint(old(endpoints), app, providerId, url)
    {
      endpoints := WithoutEndpoint(endpoints, app, providerId, url);
    }

    // -------------------------------------------------------------------------
    // mcp.rs
    // -------------------------------------------------------------------------

    /** `get_all_mcp_servers`: every stored server once, in `name, id` order. */
    method GetAllMcpServers() returns (r: seq<McpServer>)
      ensures SortedBy(r, McpKey)
      ensures forall i, j :: 0 <= i < j < |r| ==> r[i].id != r[j].id
      ensures forall id :: (exists i :: 0 <= i < |r| && r[i].id == id) <==> id in mcpServers
      ensures forall i :: 0 <= i < |r| ==> McpOf(r[i].id) == Some(r[i])
    {
      var rows := mcpServers;
      var key := (id: string) => if id in rows then [KStr(rows[id].name), KStr(id)] else [KStr(id)];
      var ordered := Ordered(mcpServers.Keys, key);
      r := [];
      for i := 0 to |ordered|
        invariant |r| == i
        invariant forall k :: 0 <= k < i ==> r[k].id == ordered[k] && McpOf(ordered[k]) == Some(r[k])
        invariant forall k :: 0 <= k < i ==> McpKey(r[k]) == key(ordered[k])
      {
        var id := ordered[i];
        r := r + [ReadMcp(id, mcpServers[id])];
      }
      SortedByImage(ordered, key, r, McpKey);
      forall id | id in mcpServers
        ensures exists i :: 0 <= i < |r| && r[i].id == id
      {
        var i :| 0 <= i < |ordered| && ordered[i] == id;
        assert r[i].id == id;
      }
    }

    /** `save_mcp_server`: INSERT OR REPLACE, so afterwards the id reads back as exactly `s`. */
    method SaveMcpServer(s: McpServer)
      modifies this
      ensures OnlyMcpTable()
      ensures mcpServers == old(mcpServers)[s.id := McpRowOf(s)]
      ensures McpOf(s.id) == Some(s)
    {
      mcpServers := mcpServers[s.id := McpRowOf(s)];
      McpRoundTrip(s);
    }

    /** `delete_mcp_server(id)` */
    method DeleteMcpServer(id: string)
      modifies this
      ensures OnlyMcpTable()
      ensures mcpServers == old(mcpServers) - {id}
    {
      mcpServers := mcpServers - {id};
    }

    // -------------------------------------------------------------------------
    // skills.rs
    // -------------------------------------------------------------------------

    /** `get_skills`: every skill state once, in key order. */
    method GetSkills() returns (r: seq<(string, SkillState)>)
      ensures SortedBy(r, SkillKey)
      ensures forall i, j :: 0 <= i < j < |r| ==> r[i].0 != r[j].0
      ensures forall k :: (exists i :: 0 <= i < |r| && r[i].0 == k) <==> k in skills
      ensures forall i :: 0 <= i < |r| ==> r[i].0 in skills && skills[r[i].0] == r[i].1
    {
      var key := (k: string) => [KStr(k)];
      var ordered := Ordered(skills.Keys, key);
      r := [];
      for i := 0 to |ordered|
        invariant |r| == i
        invariant forall k :: 0 <= k < i ==> ordered[k] in skills && r[k] == (ordered[k], skills[ordered[k]])
      {
        r := r + [(ordered[i], skills[ordered[i]])];
      }
      forall k | k in skills
        ensures exists i :: 0 <= i < |r| && r[i].0 == k
      {
        var i :| 0 <= i < |ordered| && ordered[i] == k;
        assert r[i].0 == k;
      }
    }

    /** `update_skill_state(key, state)`: INSERT OR REPLACE by key. */
    method UpdateSkillState(key: string, state: SkillState)
      modifies this
      ensures OnlySkillTables() && repos == old(repos)
      ensures skills == old(skills)[key := state]
    {
      skills := skills[key := state];
    }

    /** The repository stored under `(owner, name)`. */
    function RepoOf(k: (string, string)): SkillRepo
      reads this
      requires k in repos
    {
      SkillRepo(k.0, k.1, repos[k].branch, repos[k].enabled)
    }

    /** `get_skill_repos`: every repository once, in `owner, name` order. */
    method GetSkillRepos() returns (r: seq<SkillRepo>)
      ensures SortedBy(r, RepoKey)
      ensures forall i, j :: 0 <= i < j < |r| ==> (r[i].owner, r[i].name) != (r[j].owner, r[j].name)
      ensures forall k :: (exists i :: 0 <= i < |r| && (r[i].owner, r[i].name) == k) <==> k in repos
      ensures forall i :: 0 <= i < |r| ==> (r[i].owner, r[i].name) in repos && RepoOf((r[i].owner, r[i].name)) == r[i]
    {
      var key := (k: (string, string)) => [KStr(k.0), KStr(k.1)];
      var ordered := Ordered(repos.Keys, key);
      r := [];
      for i := 0 to |ordered|
        invariant |r| == i
        invariant forall k :: 0 <= k < i ==> ordered[k] in repos && r[k] == RepoOf(ordered[k])
      {
        r := r + [RepoOf(ordered[i])];
      }
      forall k | k in repos
        ensures exists i :: 0 <= i < |r| && (r[i].owner, r[i].name) == k
      {
        var i :| 0 <= i < |ordered| && ordered[i] == k;
        assert (r[i].owner, r[i].name) == k;
      }
    }

    /** `save_skill_repo`: INSERT OR REPLACE by `(owner, name)`. */
    method SaveSkillRepo(repo: SkillRepo)
      modifies this
      ensures OnlySkillTables() && skills == old(skills)
      ensures repos == old(repos)[(repo.owner, repo.name) := RepoRow(repo.branch, repo.enabled)]
    {
      repos := repos[(repo.owner, repo.name) := RepoRow(repo.branch, repo.enabled)];
    }

    /** `delete_skill_repo(owner, name)` */
    method DeleteSkillRepo(owner: string, name: string)
      modifies this
      ensures OnlySkillTables() && skills == old(skills)
      ensures repos == old(repos) - {(owner, name)}
    {
      repos := repos - {(owner, name)};
    }

    /**
     * `init_default_skill_repos`: nothing when any repository exists; otherwise
     * every default is saved in turn and their number returned.
     */
    method InitDefaultSkillRepos(defaults: seq<SkillRepo>) returns (count: nat)
      modifies this
      ensures OnlySkillTables() && skills == old(skills)
      ensures old(repos) != map[] ==> count == 0 && repos == old(repos)
      ensures old(repos) == map[] ==> count == |defaults| && repos == SaveRepos(map[], defaults)
    {
      if repos != map[] {
        return 0;
      }
      count := 0;
      for i := 0 to |defaults|
        invariant count == i
        invariant repos == SaveRepos(map[], defaults[..i])
        invariant OnlySkillTables() && skills == old(skills)
      {
        SaveReposSnoc(map[], defaults[..i], defaults[i]);
        assert defaults[..i + 1] == defaults[..i] + [defaults[i]];
        SaveSkillRepo(defaults[i]);
        count := count + 1;
      }
      assert defaults[..|defaults|] == defaults;
    }

    // -------------------------------------------------------------------------
    // prompts (the prompts data-access file is not part of this model; these
    // follow the table's primary key and the migration's INSERT OR REPLACE)
    // -------------------------------------------------------------------------

    /** The prompts of `app` by id. */
    function PromptsOf(app: string): (m: map<string, Prompt>)
      reads this
      ensures m == AppPrompts(prompts, app)
    {
      AppPrompts(prompts, app)
    }

    /** `get_prompts`: the prompts of one application, each keyed by its id. */
    method GetPrompts(app: string) returns (r: map<string, Prompt>)
      ensures r == AppPrompts(prompts, app)
      ensures forall id :: id in r ==> r[id].id == id
    {
      r := AppPrompts(prompts, app);
    }

    method SavePrompt(app: string, p: Prompt)
      modifies this
      ensures OnlyPromptTable()
      ensures prompts == old(prompts)[(app, p.id) := p]
    {
      prompts := prompts[(app, p.id) := p];
    }

    /** Each entry of `ps` saved in turn, under its map key. */
    method SavePrompts(app: string, ps: map<string, Prompt>)
      modifies this
      ensures OnlyPromptTable()
      ensures prompts == old(prompts) + PromptRows(app, ps)
    {
      var rows := PromptRows(app, ps);
      Collections.RestrictNone(prompts, rows);
      var rest := rows.Keys;
      while rest != {}
        invariant rest <= rows.Keys
        invariant OnlyPromptTable()
        invariant prompts == old(prompts) + Collections.Restrict(rows, rows.Keys - rest)
        decreases rest
      {
        var k :| k in rest;
        assert (rows.Keys - rest) + {k} == rows.Keys - (rest - {k});
        Collections.RestrictStep(old(prompts), rows, rows.Keys - rest, k);
        SavePrompt(app, ps[k.1].(id := k.1));
        rest := rest - {k};
      }
      Collections.RestrictAll(rows);
    }

    method DeletePrompt(app: string, id: string)
      modifies this
      ensures OnlyPromptTable()
      ensures prompts == old(prompts) - {(app, id)}
    {
      prompts := prompts - {(app, id)};
    }
  }

  /**
   * The prompts of `app` as a read returns them: one per row of that
   * application, under its id column, which is also the record's id.
   */
  function AppPrompts(rows: map<(string, string), Prompt>, app: string): (m: map<string, Prompt>)
    ensures forall id :: id in m <==> (app, id) in rows
    ensures forall id :: id in m ==> m[id] == rows[(app, id)].(id := id)
  {
    map k | k in rows && k.0 == app :: k.1 := rows[k].(id := k.1)
  }

  /** The rows of one application's prompts by id: each record takes its map key as its id. */
  function PromptRows(app: string, ps: map<string, Prompt>): (rows: map<(string, string), Prompt>)
    ensures forall k :: k in rows <==> k.0 == app && k.1 in ps
    ensures forall id :: id in ps ==> rows[(app, id)] == ps[id].(id := id)
  {
    map id | id in ps :: (app, id) := ps[id].(id := id)
  }

  /** Two row sets that agree on the prompts of every application but `app`. */
  ghost predicate SameOtherApps(before: map<(string, string), Prompt>, after: map<(string, string), Prompt>, app: string)
  {
    forall a :: a != app ==> AppPrompts(after, a) == AppPrompts(before, a)
  }

  lemma SameOtherAppsTrans(r1: map<(string, string), Prompt>, r2: map<(string, string), Prompt>,
                           r3: map<(string, string), Prompt>, app: string)
    requires SameOtherApps(r1, r2, app) && SameOtherApps(r2, r3, app)
    ensures SameOtherApps(r1, r3, app)
  {
  }

  /** Saving a prompt under its own id replaces that entry of its application and touches no other. */
  lemma AppPromptsSaved(rows: map<(string, string), Prompt>, app: string, p: Prompt)
    ensures AppPrompts(rows[(app, p.id) := p], app) == AppPrompts(rows, app)[p.id := p]
    ensures SameOtherApps(rows, rows[(app, p.id) := p], app)
  {
    forall a | a != app
      ensures AppPrompts(rows[(app, p.id) := p], a) == AppPrompts(rows, a)
    {
      AppPromptsSave(rows, app, p, a);
    }
  }

  /** Deleting a row removes that entry of its application and touches no other. */
  lemma AppPromptsDeleted(rows: map<(string, string), Prompt>, app: string, id: string)
    ensures AppPrompts(rows - {(app, id)}, app) == AppPrompts(rows, app) - {id}
    ensures SameOtherApps(rows, rows - {(app, id)}, app)
  {
    forall a | a != app
      ensures AppPrompts(rows - {(app, id)}, a) == AppPrompts(rows, a)
    {
      AppPromptsDelete(rows, app, id, a);
    }
  }

  /** Writing the rows of `ps` over an application's rows: its prompts gain `ps`. */
  lemma AppPromptsOverwritten(rows: map<(string, string), Prompt>, app: string, ps: map<string, Prompt>)
    requires forall k :: k in ps ==> ps[k].id == k
    ensures AppPrompts(rows + PromptRows(app, ps), app) == AppPrompts(rows, app) + ps
    ensures SameOtherApps(rows, rows + PromptRows(app, ps), app)
  {
    var after := rows + PromptRows(app, ps);
    OwnAppOverwritten(rows, app, ps);
    forall a | a != app
      ensures AppPrompts(after, a) == AppPrompts(rows, a)
    {
      OtherAppOverwritten(rows, app, ps, a);
    }
  }

  lemma OwnAppOverwritten(rows: map<(string, string), Prompt>, app: string, ps: map<string, Prompt>)
    requires forall k :: k in ps ==> ps[k].id == k
    ensures AppPrompts(rows + PromptRows(app, ps), app) == AppPrompts(rows, app) + ps
  {
    var l, r := AppPrompts(rows + PromptRows(app, ps), app), AppPrompts(rows, app) + ps;
    OwnAppOverwrittenAt(rows, app, ps);
    assert l.Keys == r.Keys;
    assert l == r;
  }

  lemma OwnAppOverwrittenAt(rows: map<(string, string), Prompt>, app: string, ps: map<string, Prompt>)
    requires forall k :: k in ps ==> ps[k].id == k
    ensures forall id :: id in AppPrompts(rows + PromptRows(app, ps), app) <==> id in AppPrompts(rows, app) + ps
    ensures forall id :: id in AppPrompts(rows + PromptRows(app, ps), app) ==>
      AppPrompts(rows + PromptRows(app, ps), app)[id] == (AppPrompts(rows, app) + ps)[id]
  {
    forall id
      ensures id in AppPrompts(rows + PromptRows(app, ps), app) <==> id in AppPrompts(rows, app) + ps
      ensures id in AppPrompts(rows + PromptRows(app, ps), app) ==>
        AppPrompts(rows + PromptRows(app, ps), app)[id] == (AppPrompts(rows, app) + ps)[id]
    {
      OwnAppOverwrittenOne(rows, app, ps, id);
    }
  }

  lemma OwnAppOverwrittenOne(rows: map<(string, string), Prompt>, app: string, ps: map<string, Prompt>, id: string)
    requires forall k :: k in ps ==> ps[k].id == k
    ensures id in AppPrompts(rows + PromptRows(app, ps), app) <==> id in AppPrompts(rows, app) + ps
    ensures id in AppPrompts(rows + PromptRows(app, ps), app) ==>
      AppPrompts(rows + PromptRows(app, ps), app)[id] == (AppPrompts(rows, app) + ps)[id]
  {
    var after := rows + PromptRows(app, ps);
    if id in ps {
      assert after[(app, id)] == ps[id];
    } else if (app, id) in rows {
      assert after[(app, id)] == rows[(app, id)];
    }
  }

  lemma OtherAppOverwritten(rows: map<(string, string), Prompt>, app: string, ps: map<string, Prompt>, a: string)
    requires a != app
    ensures AppPrompts(rows + PromptRows(app, ps), a) == AppPrompts(rows, a)
  {
    var after := rows + PromptRows(app, ps);
    assert AppPrompts(after, a).Keys == AppPrompts(rows, a).Keys;
  }

  /** Saving a prompt under its own id replaces that entry of its application and touches no other. */
  lemma AppPromptsSave(rows: map<(string, string), Prompt>, app: string, p: Prompt, other: string)
    ensures AppPrompts(rows[(app, p.id) := p], app) == AppPrompts(rows, app)[p.id := p]
    ensures other != app ==> AppPrompts(rows[(app, p.id) := p], other) == AppPrompts(rows, other)
  {
  }

  /** Deleting a row removes that entry of its application and touches no other. */
  lemma AppPromptsDelete(rows: map<(string, string), Prompt>, app: string, id: string, other: string)
    ensures AppPrompts(rows - {(app, id)}, app) == AppPrompts(rows, app) - {id}
    ensures other != app ==> AppPrompts(rows - {(app, id)}, other) == AppPrompts(rows, other)
  {
    AppPromptsDeleteOwn(rows, app, id);
    if other != app {
      AppPromptsDeleteOther(rows, app, id, other);
    }
  }

  lemma AppPromptsDeleteOwn(rows: map<(string, string), Prompt>, app: string, id: string)
    ensures AppPrompts(rows - {(app, id)}, app) == AppPrompts(rows, app) - {id}
  {
    assert AppPrompts(rows - {(app, id)}, app).Keys == AppPrompts(rows, app).Keys - {id};
  }

  lemma AppPromptsDeleteOther(rows: map<(string, string), Prompt>, app: string, id: string, other: string)
    requires other != app
    ensures AppPrompts(rows - {(app, id)}, other) == AppPrompts(rows, other)
  {
    assert AppPrompts(rows - {(app, id)}, other).Keys == AppPrompts(rows, other).Keys;
  }

  /** The repositories after saving `rs` one after another into `m`: the last per key wins. */
  function SaveRepos(m: map<(string, string), RepoRow>, rs: seq<SkillRepo>): map<(string, string), RepoRow>
    decreases |rs|
  {
    if rs == [] then m
    else SaveRepos(m[(rs[0].owner, rs[0].name) := RepoRow(rs[0].branch, rs[0].enabled)], rs[1..])
  }

  lemma {:induction false} SaveReposSnoc(m: map<(string, string), RepoRow>, rs: seq<SkillRepo>, x: SkillRepo)
    ensures SaveRepos(m, rs + [x]) == SaveRepos(m, rs)[(x.owner, x.name) := RepoRow(x.branch, x.enabled)]
    decreases |rs|
  {
    if rs != [] {
      assert (rs + [x])[1..] == rs[1..] + [x];
      SaveReposSnoc(m[(rs[0].owner, rs[0].name) := RepoRow(rs[0].branch, rs[0].enabled)], rs[1..], x);
    }
  }

  /** Every default repository is present after the first-launch initialisation, with the last entry per key. */
  lemma {:induction false} SaveReposHoldsLast(m: map<(string, string), RepoRow>, rs: seq<SkillRepo>, i: nat)
    requires i < |rs|
    requires forall j :: i < j < |rs| ==> (rs[j].owner, rs[j].name) != (rs[i].owner, rs[i].name)
    ensures (rs[i].owner, rs[i].name) in SaveRepos(m, rs)
    ensures SaveRepos(m, rs)[(rs[i].owner, rs[i].name)] == RepoRow(rs[i].branch, rs[i].enabled)
    decreases |rs|
  {
    if i == |rs| - 1 {
      SaveReposSnoc(m, rs[..i], rs[i]);
      assert rs[..i] + [rs[i]] == rs;
    } else {
      var last := rs[|rs| - 1];
      assert rs == rs[..|rs| - 1] + [last];
      SaveReposSnoc(m, rs[..|rs| - 1], last);
      SaveReposHoldsLast(m, rs[..|rs| - 1], i);
    }
  }
}
