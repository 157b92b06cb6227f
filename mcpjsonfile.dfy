/**
 * The `mcpServers` object of a JSON settings file, as `~/.claude.json` and
 * `~/.gemini/settings.json` hold it. The helpers that read and write these
 * files (claude_mcp.rs, gemini_mcp.rs) are not part of this model; they are
 * taken to read the object as it stands and to replace it verbatim.
 */
module McpJsonFile {
  import opened Wrappers
  import opened Values
  import opened LiveFiles

  /** The `mcpServers` object of a parsed file, when there is one. */
  function ServersObject(v: Json): (r: Option<map<string, Json>>)
    ensures r.Some? <==> v.JObj? && "mcpServers" in v.fields && v.fields["mcpServers"].JObj?
    ensures r.Some? ==> r.value == v.fields["mcpServers"].fields
  {
    if v.JObj? && "mcpServers" in v.fields && v.fields["mcpServers"].JObj? then Some(v.fields["mcpServers"].fields)
    else None
  }

  /** `read_mcp_servers_map`: a missing file, or one without an `mcpServers` object, reads as empty. */
  function ReadServersMap(f: FileState<Json>): (r: Result<map<string, Json>>)
    ensures r.Err? <==> f.Unreadable?
    ensures f.Absent? ==> r == Ok(map[])
    ensures f.Present? && ServersObject(f.value).Some? ==> r == Ok(ServersObject(f.value).value)
    ensures f.Present? && ServersObject(f.value).None? ==> r == Ok(map[])
  {
    match f
    case Absent => Ok(map[])
    case Unreadable => Err(Config("cannot read the MCP settings file"))
    case Present(v) => Ok(ServersObject(v).UnwrapOr(map[]))
  }

  /**
   * The file content `set_mcp_servers_map` writes: the existing root object (an
   * empty one for a missing file) with `mcpServers` replaced. A root that is not
   * an object, or an unreadable file, is an error.
   */
  function WithServersMap(f: FileState<Json>, servers: map<string, Json>): (r: Result<Json>)
    ensures r.Ok? <==> f.Absent? || (f.Present? && f.value.JObj?)
    ensures r.Ok? ==> r.value.JObj? && ReadServersMap(Present(r.value)) == Ok(servers)
    ensures r.Ok? ==> forall k :: k in r.value.fields && k != "mcpServers" ==>
      f.Present? && k in f.value.fields && r.value.fields[k] == f.value.fields[k]
    ensures r.Ok? && f.Present? ==> forall k :: k in f.value.fields ==> k in r.value.fields
  {
    match f
    case Absent => Ok(JObj(map["mcpServers" := JObj(servers)]))
    case Unreadable => Err(Config("cannot read the MCP settings file"))
    case Present(v) =>
      if v.JObj? then Ok(JObj(v.fields["mcpServers" := JObj(servers)]))
      else Err(Config("the settings root must be an object"))
  }
}
