/**
 * Gemini's MCP projection (mcp/gemini.rs): the enabled legacy entries or one
 * server written into the `mcpServers` object of `~/.gemini/settings.json`, one server
 * removed from it, and the import of that object into the unified servers.
 */
module McpGemini {
  import opened Wrappers
  import opened Values
  import opened Records
  import opened LiveFiles
  import opened McpJsonFile
  import opened McpImport

  /** `gemini_mcp::set_mcp_servers_map`: replace the `mcpServers` object; a failure writes nothing. */
  method SetServersMap(fs: FileSystem, servers: map<string, Json>) returns (r: Result<()>)
    modifies fs
    ensures r.Ok? <==> WithServersMap(old(fs.files.geminiSettings), servers).Ok?
    ensures r.Err? ==> fs.files == old(fs.files)
    ensures r.Ok? ==> fs.files == old(fs.files).(geminiSettings := Present(WithServersMap(old(fs.files.geminiSettings), servers).value))
  {
    var content := WithServersMap(fs.files.geminiSettings, servers);
    if content.Err? {
      return Err(content.error);
    }
    fs.files := fs.files.(geminiSettings := Present(content.value));
    r := Ok(());
  }

  /** `sync_enabled_to_gemini`: the file's `mcpServers` becomes exactly the enabled legacy entries. */
  method SyncEnabledToGemini(fs: FileSystem, config: McpConfig, extract: Json -> Result<Json>) returns (r: Result<()>)
    modifies fs
    ensures r.Ok? <==> WithServersMap(old(fs.files.geminiSettings), EnabledSpecs(config.gemini, extract)).Ok?
    ensures r.Err? ==> fs.files == old(fs.files)
    ensures r.Ok? ==> ReadServersMap(fs.files.geminiSettings) == Ok(EnabledSpecs(config.gemini, extract))
    ensures fs.files.(geminiSettings := old(fs.files.geminiSettings)) == old(fs.files)
  {
    var enabled := CollectEnabledServers(config.gemini, extract);
    r := SetServersMap(fs, enabled);
  }

  /**
   * `import_from_gemini`: an unreadable file is an error; an empty live map
   * imports nothing and leaves the configuration as it is (the servers map is
   * not created); otherwise every entry is imported for Gemini.
   */
  method ImportFromGemini(fs: FileSystem, config: McpConfig, valid: Json -> bool) returns (out: McpConfig, r: Result<nat>)
    ensures r.Err? <==> fs.files.geminiSettings.Unreadable?
    ensures r.Err? ==> out == config && r.error == ReadServersMap(fs.files.geminiSettings).error
    ensures ReadServersMap(fs.files.geminiSettings) == Ok(map[]) ==> out == config && r == Ok(0)
    ensures ReadServersMap(fs.files.geminiSettings).Ok? && ReadServersMap(fs.files.geminiSettings).value != map[] ==>
      var specs := ReadServersMap(fs.files.geminiSettings).value;
      out == config.(servers := Some(ImportAll(config.Servers(), specs, Gemini, valid))) &&
      r == Ok(|CountedIds(config.Servers(), specs, Gemini, valid)|)
  {
    var specs := ReadServersMap(fs.files.geminiSettings);
    if specs.Err? {
      return config, Err(specs.error);
    }
    if |specs.value| == 0 {
      return config, Ok(0);
    }
    var changed;
    out, changed := ImportInto(config, specs.value, Gemini, valid);
    r := Ok(changed);
  }

  /** `sync_single_server_to_gemini`: the live map gains or replaces exactly `id`. */
  method SyncSingleServerToGemini(fs: FileSystem, id: string, spec: Json) returns (r: Result<()>)
    modifies fs
    ensures r.Err? ==> fs.files == old(fs.files)
    ensures r.Ok? <==> old(fs.files.geminiSettings).Absent? || (old(fs.files.geminiSettings).Present? && old(fs.files.geminiSettings).value.JObj?)
    ensures r.Ok? ==> ReadServersMap(fs.files.geminiSettings) == Ok(ReadServersMap(old(fs.files.geminiSettings)).value[id := spec])
    ensures fs.files.(geminiSettings := old(fs.files.geminiSettings)) == old(fs.files)
  {
    var current := ReadServersMap(fs.files.geminiSettings);
    if current.Err? {
      return Err(current.error);
    }
    r := SetServersMap(fs, current.value[id := spec]);
  }

  /** `remove_server_from_gemini`: the live map loses exactly `id`. */
  method RemoveServerFromGemini(fs: FileSystem, id: string) returns (r: Result<()>)
    modifies fs
    ensures r.Err? ==> fs.files == old(fs.files)
    ensures r.Ok? <==> old(fs.files.geminiSettings).Absent? || (old(fs.files.geminiSettings).Present? && old(fs.files.geminiSettings).value.JObj?)
    ensures r.Ok? ==> ReadServersMap(fs.files.geminiSettings) == Ok(ReadServersMap(old(fs.files.geminiSettings)).value - {id})
    ensures fs.files.(geminiSettings := old(fs.files.geminiSettings)) == old(fs.files)
  {
    var current := ReadServersMap(fs.files.geminiSettings);
    if current.Err? {
      return Err(current.error);
    }
    r := SetServersMap(fs, current.value - {id});
  }
}
