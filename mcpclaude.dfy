/**
 * Claude's MCP projection (mcp/claude.rs): the enabled legacy entries or one
 * server written into the `mcpServers` object of `~/.claude.json`, one server
 * removed from it, and the import of that object into the unified servers.
 */
module McpClaude {
  import opened Wrappers
  import opened Values
  import opened Records
  import opened LiveFiles
  import opened McpJsonFile
  import opened McpImport

  /** `claude_mcp::set_mcp_servers_map`: replace the `mcpServers` object; a failure writes nothing. */
  method SetServersMap(fs: FileSystem, servers: map<string, Json>) returns (r: Result<()>)
    modifies fs
    ensures r.Ok? <==> WithServersMap(old(fs.files.claudeMcp), servers).Ok?
    ensures r.Err? ==> fs.files == old(fs.files)
    ensures r.Ok? ==> fs.files == old(fs.files).(claudeMcp := Present(WithServersMap(old(fs.files.claudeMcp), servers).value))
  {
    var content := WithServersMap(fs.files.claudeMcp, servers);
    if content.Err? {
      return Err(content.error);
    }
    fs.files := fs.files.(claudeMcp := Present(content.value));
    r := Ok(());
  }

  /** `sync_enabled_to_claude`: the file's `mcpServers` becomes exactly the enabled legacy entries. */
  method SyncEnabledToClaude(fs: FileSystem, config: McpConfig, extract: Json -> Result<Json>) returns (r: Result<()>)
    modifies fs
    ensures r.Ok? <==> WithServersMap(old(fs.files.claudeMcp), EnabledSpecs(config.claude, extract)).Ok?
    ensures r.Err? ==> fs.files == old(fs.files)
    ensures r.Ok? ==> ReadServersMap(fs.files.claudeMcp) == Ok(EnabledSpecs(config.claude, extract))
    ensures fs.files.(claudeMcp := old(fs.files.claudeMcp)) == old(fs.files)
  {
    var enabled := CollectEnabledServers(config.claude, extract);
    r := SetServersMap(fs, enabled);
  }

  /** The import's error for a `~/.claude.json` that does not parse; the parser's own message is not modelled. */
  const ParseFailed: Error := McpValidation("解析 ~/.claude.json 失败")

  /**
   * `import_from_claude`: a missing file, or one without an `mcpServers`
   * object, imports nothing and leaves the configuration as it is; a file that
   * does not parse is an error; otherwise every entry is imported for Claude.
   */
  method ImportFromClaude(fs: FileSystem, config: McpConfig, valid: Json -> bool) returns (out: McpConfig, r: Result<nat>)
    ensures r.Err? <==> fs.files.claudeMcp.Unreadable?
    ensures r.Err? ==> r.error == ParseFailed && out == config
    ensures r.Ok? && (fs.files.claudeMcp.Absent? || ServersObject(fs.files.claudeMcp.value).None?) ==>
      out == config && r.value == 0
    ensures fs.files.claudeMcp.Present? && ServersObject(fs.files.claudeMcp.value).Some? ==>
      var specs := ServersObject(fs.files.claudeMcp.value).value;
      out == config.(servers := Some(ImportAll(config.Servers(), specs, Claude, valid))) &&
      r == Ok(|CountedIds(config.Servers(), specs, Claude, valid)|)
  {
    match fs.files.claudeMcp
    case Absent =>
      return config, Ok(0);
    case Unreadable =>
      return config, Err(ParseFailed);
    case Present(v) =>
      var specs := ServersObject(v);
      if specs.None? {
        return config, Ok(0);
      }
      var changed;
      out, changed := ImportInto(config, specs.value, Claude, valid);
      r := Ok(changed);
  }

  /** `sync_single_server_to_claude`: the live map gains or replaces exactly `id`. */
  method SyncSingleServerToClaude(fs: FileSystem, id: string, spec: Json) returns (r: Result<()>)
    modifies fs
    ensures r.Err? ==> fs.files == old(fs.files)
    ensures r.Ok? <==> old(fs.files.claudeMcp).Absent? || (old(fs.files.claudeMcp).Present? && old(fs.files.claudeMcp).value.JObj?)
    ensures r.Ok? ==> ReadServersMap(fs.files.claudeMcp) == Ok(ReadServersMap(old(fs.files.claudeMcp)).value[id := spec])
    ensures fs.files.(claudeMcp := old(fs.files.claudeMcp)) == old(fs.files)
  {
    var current := ReadServersMap(fs.files.claudeMcp);
    if current.Err? {
      return Err(current.error);
    }
    r := SetServersMap(fs, current.value[id := spec]);
  }

  /** `remove_server_from_claude`: the live map loses exactly `id`. */
  method RemoveServerFromClaude(fs: FileSystem, id: string) returns (r: Result<()>)
    modifies fs
    ensures r.Err? ==> fs.files == old(fs.files)
    ensures r.Ok? <==> old(fs.files.claudeMcp).Absent? || (old(fs.files.claudeMcp).Present? && old(fs.files.claudeMcp).value.JObj?)
    ensures r.Ok? ==> ReadServersMap(fs.files.claudeMcp) == Ok(ReadServersMap(old(fs.files.claudeMcp)).value - {id})
    ensures fs.files.(claudeMcp := old(fs.files.claudeMcp)) == old(fs.files)
  {
    var current := ReadServersMap(fs.files.claudeMcp);
    if current.Err? {
      return Err(current.error);
    }
    r := SetServersMap(fs, current.value - {id});
  }
}
