/**
 * The two loops the per-application MCP modules (mcp/claude.rs, mcp/codex.rs,
 * mcp/gemini.rs, mcp/grok.rs) each spell out: collecting the enabled entries
 * of a legacy per-application table, and importing a map of live specs into
 * the unified servers map, counting what changed.
 */
module McpImport {
  import opened Wrappers
  import opened Values
  import opened Records

  /**
   * The MCP part of `MultiAppConfig` (app_config.rs is not part of this model):
   * the unified servers map, absent until an import creates it, and the legacy
   * per-application tables of entries.
   */
  datatype McpConfig = McpConfig(
    servers: Option<map<string, McpServer>>,
    claude: map<string, Json>,
    codex: map<string, Json>,
    gemini: map<string, Json>,
    grok: map<string, Json>)
  {
    /** The unified servers, empty while the map is absent. */
    function Servers(): map<string, McpServer>
    {
      servers.UnwrapOr(map[])
    }
  }

  /** `MultiAppConfig::default()`, as far as its MCP part goes. */
  const DefaultMcpConfig: McpConfig := McpConfig(None, map[], map[], map[], map[])

  /** What `collect_enabled_servers` keeps: entries with `enabled == true` whose spec can be extracted. */
  function EnabledSpecs(entries: map<string, Json>, extract: Json -> Result<Json>): (r: map<string, Json>)
    ensures forall id :: id in r <==> id in entries && GetBool(entries[id], "enabled") == Some(true) && extract(entries[id]).Ok?
    ensures forall id :: id in r ==> r[id] == extract(entries[id]).value
  {
    map id | id in entries && GetBool(entries[id], "enabled") == Some(true) && extract(entries[id]).Ok? ::
      extract(entries[id]).value
  }

  /**
   * `collect_enabled_servers`: entries that are not enabled are skipped, and so
   * are entries whose spec cannot be extracted (`extract_server_spec`, which is
   * not part of this model and is a parameter).
   */
  method CollectEnabledServers(entries: map<string, Json>, extract: Json -> Result<Json>) returns (out: map<string, Json>)
    ensures out == EnabledSpecs(entries, extract)
  {
    out := map[];
    var rest := entries.Keys;
    while rest != {}
      invariant rest <= entries.Keys
      invariant forall id :: id in out <==>
        id in entries && id !in rest && GetBool(entries[id], "enabled") == Some(true) && extract(entries[id]).Ok?
      invariant forall id :: id in out ==> out[id] == extract(entries[id]).value
      decreases rest
    {
      var id :| id in rest;
      rest := rest - {id};
      var enabled := GetBool(entries[id], "enabled").UnwrapOr(false);
      if !enabled {
        continue;
      }
      var spec := extract(entries[id]);
      if spec.Ok? {
        out := out[id := spec.value];
      }
    }
  }

  /** The ids of `specs` that pass `validate_server_spec` (a parameter). */
  function ValidIds(specs: map<string, Json>, valid: Json -> bool): (ids: set<string>)
    ensures forall id :: id in ids <==> id in specs && valid(specs[id])
  {
    set id | id in specs && valid(specs[id])
  }

  /** Whether importing `id` for `app` counts as a change: a new id, or an existing one without `app`. */
  predicate Counts(servers: map<string, McpServer>, id: string, app: AppType)
  {
    id !in servers || !servers[id].apps.Get(app)
  }

  /** The record an imported id ends up as: an existing server only gains `app`; a new one is created for `app` alone. */
  function Imported1(servers: map<string, McpServer>, id: string, spec: Json, app: AppType): McpServer
  {
    if id in servers then servers[id].(apps := servers[id].apps.Set(app, true)) else Imported(id, spec, app)
  }

  /**
   * `out` is `servers` after importing the valid specs of `specs` whose ids are
   * in `ids`: exactly those ids are added or updated, every other server stays.
   */
  ghost predicate IsImport(out: map<string, McpServer>, servers: map<string, McpServer>, specs: map<string, Json>,
                           ids: set<string>, app: AppType, valid: Json -> bool)
  {
    (forall id :: id in out <==> id in servers || (id in ids && id in specs && valid(specs[id]))) &&
    (forall id :: id in out ==>
      out[id] == if id in ids && id in specs && valid(specs[id]) then Imported1(servers, id, specs[id], app) else servers[id])
  }

  /** The servers map after importing every valid spec of `specs` for `app`. */
  function ImportAll(servers: map<string, McpServer>, specs: map<string, Json>, app: AppType, valid: Json -> bool): (r: map<string, McpServer>)
    ensures IsImport(r, servers, specs, specs.Keys, app, valid)
  {
    map id | id in servers.Keys + (set i | i in specs && valid(specs[i])) ::
      if id in specs && valid(specs[id]) then Imported1(servers, id, specs[id], app) else servers[id]
  }

  /** The description `IsImport` determines one map. */
  lemma ImportUnique(a: map<string, McpServer>, b: map<string, McpServer>, servers: map<string, McpServer>,
                     specs: map<string, Json>, ids: set<string>, app: AppType, valid: Json -> bool)
    requires IsImport(a, servers, specs, ids, app, valid)
    requires IsImport(b, servers, specs, ids, app, valid)
    ensures a == b
  {
    assert a.Keys == b.Keys;
  }

  /** The ids an import counts. */
  function CountedIds(servers: map<string, McpServer>, specs: map<string, Json>, app: AppType, valid: Json -> bool): (ids: set<string>)
    ensures forall id :: id in ids <==> id in specs && valid(specs[id]) && Counts(servers, id, app)
  {
    set id | id in specs && valid(specs[id]) && Counts(servers, id, app)
  }

  /**
   * The import loop of `import_from_claude`, `import_from_gemini` and
   * `import_from_grok`: each spec that fails validation is skipped (the error is
   * only logged); each valid one is imported and counted when it changed something.
   */
  method ImportSpecs(servers: map<string, McpServer>, specs: map<string, Json>, app: AppType, valid: Json -> bool)
    returns (out: map<string, McpServer>, changed: nat)
    ensures out == ImportAll(servers, specs, app, valid)
    ensures changed == |CountedIds(servers, specs, app, valid)|
  {
    out := servers;
    changed := 0;
    var rest := specs.Keys;
    ghost var counted: set<string> := {};
    while rest != {}
      invariant rest <= specs.Keys
      invariant IsImport(out, servers, specs, specs.Keys - rest, app, valid)
      invariant forall id :: id in counted <==> id in specs && id !in rest && valid(specs[id]) && Counts(servers, id, app)
      invariant changed == |counted|
      decreases rest
    {
      var id :| id in rest;
      ImportLoopStep(out, servers, specs, rest, id, app, valid);
      rest := rest - {id};
      if valid(specs[id]) {
        if !(id in out && out[id].apps.Get(app)) {
          changed := changed + 1;
          counted := counted + {id};
        }
        out := out[id := Imported1(out, id, specs[id], app)];
      }
    }
    assert specs.Keys - rest == specs.Keys;
    ImportUnique(out, ImportAll(servers, specs, app, valid), servers, specs, specs.Keys, app, valid);
    assert counted == CountedIds(servers, specs, app, valid);
  }

  /**
   * An import loop run on `config.mcp.servers.get_or_insert_with(HashMap::new)`:
   * the servers map exists afterwards and holds the import; nothing else changes.
   */
  method ImportInto(config: McpConfig, specs: map<string, Json>, app: AppType, valid: Json -> bool)
    returns (out: McpConfig, changed: nat)
    ensures out == config.(servers := Some(ImportAll(config.Servers(), specs, app, valid)))
    ensures changed == |CountedIds(config.Servers(), specs, app, valid)|
  {
    var servers;
    servers, changed := ImportSpecs(config.Servers(), specs, app, valid);
    out := config.(servers := Some(servers));
  }

  /** One turn of the import loop keeps `IsImport` for the ids done so far. */
  lemma ImportLoopStep(out: map<string, McpServer>, servers: map<string, McpServer>, specs: map<string, Json>,
                       rest: set<string>, id: string, app: AppType, valid: Json -> bool)
    requires rest <= specs.Keys && id in rest
    requires IsImport(out, servers, specs, specs.Keys - rest, app, valid)
    ensures id in out <==> id in servers
    ensures id in out ==> out[id] == servers[id]
    ensures valid(specs[id]) ==>
      IsImport(out[id := Imported1(out, id, specs[id], app)], servers, specs, specs.Keys - (rest - {id}), app, valid)
    ensures !valid(specs[id]) ==> IsImport(out, servers, specs, specs.Keys - (rest - {id}), app, valid)
  {
    var before := specs.Keys - rest;
    var done := specs.Keys - (rest - {id});
    assert done == before + {id};
    if valid(specs[id]) {
      var o := out[id := Imported1(servers, id, specs[id], app)];
      assert Imported1(out, id, specs[id], app) == Imported1(servers, id, specs[id], app);
      forall k
        ensures k in o <==> k in servers || (k in done && k in specs && valid(specs[k]))
      {
        if k != id {
          assert k in done <==> k in before;
        }
      }
      forall k | k in o
        ensures o[k] == if k in done && k in specs && valid(specs[k]) then Imported1(servers, k, specs[k], app) else servers[k]
      {
        if k != id {
          assert k in done <==> k in before;
        }
      }
    }
  }

  /**
   * An import only touches `app`'s flag of an existing server: its spec, name,
   * metadata and every other application's flag stay; every valid id ends up
   * enabled for `app`.
   */
  lemma ImportKeepsExisting(servers: map<string, McpServer>, specs: map<string, Json>, app: AppType, valid: Json -> bool)
    ensures forall id :: id in servers ==>
      var s := ImportAll(servers, specs, app, valid)[id];
      s.id == servers[id].id && s.name == servers[id].name && s.server == servers[id].server &&
      s.description == servers[id].description && s.homepage == servers[id].homepage &&
      s.docs == servers[id].docs && s.tags == servers[id].tags &&
      forall a :: a != app ==> s.apps.Get(a) == servers[id].apps.Get(a)
    ensures forall id :: id in ValidIds(specs, valid) ==> ImportAll(servers, specs, app, valid)[id].apps.Get(app)
    ensures forall id :: id in servers && id !in ValidIds(specs, valid) ==>
      ImportAll(servers, specs, app, valid)[id] == servers[id]
  {
  }

  /** The count never exceeds the number of entries read. */
  lemma CountBound(servers: map<string, McpServer>, specs: map<string, Json>, app: AppType, valid: Json -> bool)
    ensures |CountedIds(servers, specs, app, valid)| <= |ValidIds(specs, valid)| <= |specs|
  {
    assert ValidIds(specs, valid) <= specs.Keys;
    SubsetCard(CountedIds(servers, specs, app, valid), ValidIds(specs, valid));
    SubsetCard(ValidIds(specs, valid), specs.Keys);
  }

  lemma {:induction false} SubsetCard<T>(a: set<T>, b: set<T>)
    requires a <= b
    ensures |a| <= |b|
    decreases b
  {
    if a != {} {
      var x :| x in a;
      SubsetCard(a - {x}, b - {x});
    }
  }

  /** Enabling a flag that is already on leaves the flags as they are. */
  lemma SetEnabledAgain(a: McpApps, app: AppType)
    requires a.Get(app)
    ensures a.Set(app, true) == a
  {
    match app
    case Claude =>
    case Codex =>
    case Gemini =>
    case Grok =>
    case Qwen =>
  }

  /** Importing the same specs again changes nothing and counts nothing. */
  lemma ImportIdempotent(servers: map<string, McpServer>, specs: map<string, Json>, app: AppType, valid: Json -> bool)
    ensures ImportAll(ImportAll(servers, specs, app, valid), specs, app, valid) == ImportAll(servers, specs, app, valid)
    ensures CountedIds(ImportAll(servers, specs, app, valid), specs, app, valid) == {}
  {
    var once := ImportAll(servers, specs, app, valid);
    forall id | id in specs && valid(specs[id])
      ensures Imported1(once, id, specs[id], app) == once[id]
    {
      assert once[id].apps.Get(app);
      SetEnabledAgain(once[id].apps, app);
    }
    assert IsImport(once, once, specs, specs.Keys, app, valid);
    ImportUnique(ImportAll(once, specs, app, valid), once, once, specs, specs.Keys, app, valid);
  }
}
