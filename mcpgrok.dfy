/**
 * Grok's MCP projection (mcp/grok.rs): servers enabled for Grok written into
 * the `mcpServers` field of `~/.grok/user-settings.json` through grok_config.rs,
 * and the import of that field into the unified servers.
 */
module McpGrok {
  import opened Wrappers
  import opened Values
  import opened Records
  import opened LiveFiles
  import opened GrokConfig
  import opened McpImport

  /**
   * What `collect_grok_enabled_servers` returns: when the unified servers map
   * exists it alone decides (the specs of the servers with the Grok flag);
   * otherwise the legacy Grok table's enabled, extractable entries.
   */
  function GrokEnabled(config: McpConfig, extract: Json -> Result<Json>): (r: map<string, Json>)
    ensures config.servers.Some? ==>
      (forall id :: id in r <==> id in config.servers.value && config.servers.value[id].apps.grok) &&
      (forall id :: id in r ==> r[id] == config.servers.value[id].server)
    ensures config.servers.None? ==> r == EnabledSpecs(config.grok, extract)
  {
    if config.servers.None? then EnabledSpecs(config.grok, extract)
    else map id | id in config.servers.value && config.servers.value[id].apps.grok :: config.servers.value[id].server
  }

  /** `collect_grok_enabled_servers`, the loop that builds `GrokEnabled`. */
  method CollectGrokEnabledServers(config: McpConfig, extract: Json -> Result<Json>) returns (out: map<string, Json>)
    ensures out == GrokEnabled(config, extract)
  {
    if config.servers.None? {
      out := CollectEnabledServers(config.grok, extract);
      return;
    }
    var servers := config.servers.value;
    out := map[];
    var rest := servers.Keys;
    while rest != {}
      invariant rest <= servers.Keys
      invariant forall id :: id in out <==> id in servers && id !in rest && servers[id].apps.grok
      invariant forall id :: id in out ==> out[id] == servers[id].server
      decreases rest
    {
      var id :| id in rest;
      rest := rest - {id};
      if servers[id].apps.grok {
        out := out[id := servers[id].server];
      }
    }
    assert out.Keys == GrokEnabled(config, extract).Keys;
  }

  /** `sync_enabled_to_grok`: the settings' `mcpServers` becomes the projection of the Grok-enabled servers. */
  method SyncEnabledToGrok(fs: FileSystem, config: McpConfig, extract: Json -> Result<Json>) returns (r: Result<()>)
    modifies fs
    ensures r.Err? ==> fs.files == old(fs.files)
    ensures fs.files.(grokSettings := old(fs.files.grokSettings)) == old(fs.files)
    ensures r.Ok? <==> ReadGrokSettings(old(fs.files.grokSettings)).Ok? && AllEntriesValid(GrokEnabled(config, extract))
    ensures ReadGrokSettings(old(fs.files.grokSettings)).Err? ==> r == Err(ReadGrokSettings(old(fs.files.grokSettings)).error)
    ensures ReadGrokSettings(old(fs.files.grokSettings)).Ok? && r.Err? ==> EntryError(GrokEnabled(config, extract), r.error)
    ensures r.Ok? ==> ReadMcpServersMap(fs.files.grokSettings) == Ok(LiveEntries(GrokEnabled(config, extract)))
    ensures r.Ok? ==> fs.files.grokSettings == Present(ToJson(
      ReadGrokSettings(old(fs.files.grokSettings)).value.(mcpServers := Some(LiveEntries(GrokEnabled(config, extract))))))
  {
    var enabled := CollectGrokEnabledServers(config, extract);
    r := SetMcpServersMap(fs, enabled);
    if r.Ok? {
      SetThenRead(old(fs.files.grokSettings), enabled);
    }
  }

  /**
   * `import_from_grok`: an unreadable or malformed settings file is an error;
   * otherwise every entry of `mcpServers` is imported for Grok. Unlike the
   * Gemini import there is no early return, so the servers map always exists
   * afterwards.
   */
  method ImportFromGrok(fs: FileSystem, config: McpConfig, valid: Json -> bool) returns (out: McpConfig, r: Result<nat>)
    ensures r.Err? <==> ReadMcpServersMap(fs.files.grokSettings).Err?
    ensures r.Err? ==> out == config && r.error == ReadMcpServersMap(fs.files.grokSettings).error
    ensures r.Ok? ==>
      var specs := ReadMcpServersMap(fs.files.grokSettings).value;
      out == config.(servers := Some(ImportAll(config.Servers(), specs, Grok, valid))) &&
      r.value == |CountedIds(config.Servers(), specs, Grok, valid)|
  {
    var specs := ReadMcpServersMap(fs.files.grokSettings);
    if specs.Err? {
      return config, Err(specs.error);
    }
    var changed;
    out, changed := ImportInto(config, specs.value, Grok, valid);
    r := Ok(changed);
  }

  /** `sync_single_server_to_grok`: the projected map gains or replaces exactly `id`. */
  method SyncSingleServerToGrok(fs: FileSystem, id: string, spec: Json) returns (r: Result<()>)
    modifies fs
    ensures r.Err? ==> fs.files == old(fs.files)
    ensures r.Ok? <==> (ReadGrokSettings(old(fs.files.grokSettings)).Ok? &&
      AllEntriesValid(ReadMcpServersMap(old(fs.files.grokSettings)).value[id := spec]))
    ensures r.Ok? ==> (ReadMcpServersMap(fs.files.grokSettings) ==
      Ok(LiveEntries(ReadMcpServersMap(old(fs.files.grokSettings)).value[id := spec])))
    ensures fs.files.(grokSettings := old(fs.files.grokSettings)) == old(fs.files)
  {
    var current := ReadMcpServersMap(fs.files.grokSettings);
    if current.Err? {
      return Err(current.error);
    }
    r := SetMcpServersMap(fs, current.value[id := spec]);
    if r.Ok? {
      SetThenRead(old(fs.files.grokSettings), current.value[id := spec]);
    }
  }

  /** `remove_server_from_grok`: the projected map loses exactly `id`. */
  method RemoveServerFromGrok(fs: FileSystem, id: string) returns (r: Result<()>)
    modifies fs
    ensures r.Err? ==> fs.files == old(fs.files)
    ensures r.Ok? <==> (ReadGrokSettings(old(fs.files.grokSettings)).Ok? &&
      AllEntriesValid(ReadMcpServersMap(old(fs.files.grokSettings)).value - {id}))
    ensures r.Ok? ==> (ReadMcpServersMap(fs.files.grokSettings) ==
      Ok(LiveEntries(ReadMcpServersMap(old(fs.files.grokSettings)).value - {id})))
    ensures fs.files.(grokSettings := old(fs.files.grokSettings)) == old(fs.files)
  {
    var current := ReadMcpServersMap(fs.files.grokSettings);
    if current.Err? {
      return Err(current.error);
    }
    r := SetMcpServersMap(fs, current.value - {id});
    if r.Ok? {
      SetThenRead(old(fs.files.grokSettings), current.value - {id});
    }
  }
}
