/**
 * Grok's `user-settings.json` (grok_config.rs): the typed settings record, its
 * serde mapping to and from JSON, and the projection of MCP servers into its
 * `mcpServers` object.
 */
module GrokConfig {
  import opened Wrappers
  import opened Values
  import opened LiveFiles

  /** `GrokSettings`; `settingsVersion` is a `u32`. */
  datatype GrokSettings = GrokSettings(
    apiKey: Option<string>,
    baseUrl: Option<string>,
    defaultModel: Option<string>,
    models: seq<string>,
    mcpServers: Option<map<string, Json>>,
    settingsVersion: nat)

  const U32Limit: nat := 0x1_0000_0000

  /** `GrokSettings::default()` */
  const DefaultGrokSettings: GrokSettings := GrokSettings(
    None, None, Some("grok-code-fast-1"),
    ["grok-4-1-fast-reasoning", "grok-4-1-fast-non-reasoning", "grok-4-fast-reasoning",
     "grok-4-fast-non-reasoning", "grok-4", "grok-4-latest", "grok-code-fast-1", "grok-3",
     "grok-3-latest", "grok-3-fast", "grok-3-mini", "grok-3-mini-fast"],
    None, 2)

  /** An `Option<String>` field: absent or null is None, a string is Some, anything else fails. */
  function OptionalString(obj: map<string, Json>, key: string): (r: Result<Option<string>>)
    ensures r.Err? <==> key in obj && !obj[key].JStr? && !obj[key].JNull?
    ensures r.Ok? && r.value.Some? <==> key in obj && obj[key].JStr?
    ensures r.Ok? && r.value.Some? ==> r.value.value == obj[key].s
  {
    if key !in obj || obj[key].JNull? then Ok(None)
    else if obj[key].JStr? then Ok(Some(obj[key].s))
    else Err(JsonSerialize("invalid type: expected a string"))
  }

  /** A JSON array read as a `Vec<String>`: every item must be a string. */
  function StringItems(items: seq<Json>): (r: Option<seq<string>>)
    ensures r.Some? <==> forall i :: 0 <= i < |items| ==> items[i].JStr?
    ensures r.Some? ==> |r.value| == |items| && forall i :: 0 <= i < |items| ==> r.value[i] == items[i].s
  {
    if items == [] then Some([])
    else if !items[0].JStr? then None
    else
      var rest := StringItems(items[1..]);
      if rest.None? then None else Some([items[0].s] + rest.value)
  }

  /** The JSON array of strings serde writes for a `Vec<String>`. */
  function StringArray(ss: seq<string>): (r: seq<Json>)
    ensures |r| == |ss| && forall i :: 0 <= i < |ss| ==> r[i] == JStr(ss[i])
  {
    seq(|ss|, i requires 0 <= i < |ss| => JStr(ss[i]))
  }

  /** `models`: `#[serde(default)]`, so absent is empty; otherwise an array of strings. */
  function Models(obj: map<string, Json>): (r: Result<seq<string>>)
    ensures "models" !in obj ==> r == Ok([])
    ensures "models" in obj ==> (r.Ok? <==> obj["models"].JArr? && StringItems(obj["models"].items).Some?)
  {
    if "models" !in obj then Ok([])
    else if obj["models"].JArr? && StringItems(obj["models"].items).Some? then
      Ok(StringItems(obj["models"].items).value)
    else Err(JsonSerialize("invalid type: expected a sequence of strings"))
  }

  /** `mcpServers`: absent or null is None, an object is its entries, anything else fails. */
  function ServerMap(obj: map<string, Json>): (r: Result<Option<map<string, Json>>>)
    ensures r.Err? <==> "mcpServers" in obj && !obj["mcpServers"].JObj? && !obj["mcpServers"].JNull?
    ensures r.Ok? && r.value.Some? <==> "mcpServers" in obj && obj["mcpServers"].JObj?
    ensures r.Ok? && r.value.Some? ==> r.value.value == obj["mcpServers"].fields
  {
    if "mcpServers" !in obj || obj["mcpServers"].JNull? then Ok(None)
    else if obj["mcpServers"].JObj? then Ok(Some(obj["mcpServers"].fields))
    else Err(JsonSerialize("invalid type: expected a map"))
  }

  /** `settingsVersion`: required, and an integer that fits a `u32`. */
  function Version(obj: map<string, Json>): (r: Result<nat>)
    ensures r.Ok? <==> "settingsVersion" in obj && obj["settingsVersion"].JInt? &&
                       0 <= obj["settingsVersion"].i < U32Limit
    ensures r.Ok? ==> r.value == obj["settingsVersion"].i
  {
    if "settingsVersion" !in obj then Err(JsonSerialize("missing field `settingsVersion`"))
    else if obj["settingsVersion"].JInt? && 0 <= obj["settingsVersion"].i < U32Limit then
      Ok(obj["settingsVersion"].i)
    else Err(JsonSerialize("invalid type: expected u32"))
  }

  /**
   * `GrokSettings::from_json_value`: an object whose known fields have the right
   * types; unknown fields are ignored.
   */
  function FromJson(v: Json): (r: Result<GrokSettings>)
    ensures r.Ok? ==> v.JObj? && r.value.settingsVersion < U32Limit
    ensures r.Ok? <==> (v.JObj? && OptionalString(v.fields, "apiKey").Ok? && OptionalString(v.fields, "baseURL").Ok? &&
                        OptionalString(v.fields, "defaultModel").Ok? && Models(v.fields).Ok? &&
                        ServerMap(v.fields).Ok? && Version(v.fields).Ok?)
  {
    if !v.JObj? then Err(JsonSerialize("invalid type: expected struct GrokSettings"))
    else
      var apiKey := OptionalString(v.fields, "apiKey");
      var baseUrl := OptionalString(v.fields, "baseURL");
      var defaultModel := OptionalString(v.fields, "defaultModel");
      var models := Models(v.fields);
      var servers := ServerMap(v.fields);
      var version := Version(v.fields);
      if apiKey.Err? then Err(apiKey.error)
      else if baseUrl.Err? then Err(baseUrl.error)
      else if defaultModel.Err? then Err(defaultModel.error)
      else if models.Err? then Err(models.error)
      else if servers.Err? then Err(servers.error)
      else if version.Err? then Err(version.error)
      else Ok(GrokSettings(apiKey.value, baseUrl.value, defaultModel.value, models.value,
                           servers.value, version.value))
  }

  /** An optional string field written only when present (`skip_serializing_if = "Option::is_none"`). */
  function PutOptional(m: map<string, Json>, key: string, v: Option<string>): map<string, Json>
  {
    if v.Some? then m[key := JStr(v.value)] else m
  }

  /** `GrokSettings::to_json_value`: `None` fields and an empty `models` are skipped. */
  function ToJson(s: GrokSettings): (r: Json)
    ensures r.JObj? && "settingsVersion" in r.fields && r.fields["settingsVersion"] == JInt(s.settingsVersion)
    ensures forall k :: k in r.fields ==> k in {"apiKey", "baseURL", "defaultModel", "models", "mcpServers", "settingsVersion"}
  {
    var m := map["settingsVersion" := JInt(s.settingsVersion)];
    var m := PutOptional(m, "apiKey", s.apiKey);
    var m := PutOptional(m, "baseURL", s.baseUrl);
    var m := PutOptional(m, "defaultModel", s.defaultModel);
    var m := if s.models != [] then m["models" := JArr(StringArray(s.models))] else m;
    var m := if s.mcpServers.Some? then m["mcpServers" := JObj(s.mcpServers.value)] else m;
    JObj(m)
  }

  /** A JSON array of strings reads back as the same strings. */
  lemma StringItemsOfArray(ss: seq<string>)
    ensures StringItems(StringArray(ss)) == Some(ss)
  {
    var r := StringItems(StringArray(ss));
    assert r.Some?;
    assert r.value == ss;
  }

  /** Each known field of the written object reads back as the field it was written from. */
  lemma ToJsonFields(s: GrokSettings)
    ensures var f := ToJson(s).fields;
      OptionalString(f, "apiKey") == Ok(s.apiKey) &&
      OptionalString(f, "baseURL") == Ok(s.baseUrl) &&
      OptionalString(f, "defaultModel") == Ok(s.defaultModel)
    ensures ServerMap(ToJson(s).fields) == Ok(s.mcpServers)
  {
  }

  /** The `models` field reads back as the models written. */
  lemma ToJsonModels(s: GrokSettings)
    ensures Models(ToJson(s).fields) == Ok(s.models)
  {
    var f := ToJson(s).fields;
    if s.models == [] {
      assert "models" !in f;
    } else {
      assert f["models"] == JArr(StringArray(s.models));
      StringItemsOfArray(s.models);
    }
  }

  /** Writing settings and reading them back gives the same settings. */
  lemma RoundTrip(s: GrokSettings)
    requires s.settingsVersion < U32Limit
    ensures FromJson(ToJson(s)) == Ok(s)
  {
    ToJsonFields(s);
    ToJsonModels(s);
  }

  /**
   * Passing a value through the typed record keeps only the six known fields:
   * a settings object that already holds nothing else comes back unchanged.
   */
  lemma ReserializeKeepsKnownFields(v: Json)
    requires FromJson(v).Ok?
    ensures forall k :: k in ToJson(FromJson(v).value).fields ==> k in {"apiKey", "baseURL", "defaultModel", "models", "mcpServers", "settingsVersion"}
    ensures FromJson(ToJson(FromJson(v).value)) == FromJson(v)
  {
    RoundTrip(FromJson(v).value);
  }

  /** `read_grok_settings`: a missing file gives the defaults. */
  function ReadGrokSettings(f: FileState<Json>): (r: Result<GrokSettings>)
    ensures f.Absent? ==> r == Ok(DefaultGrokSettings)
    ensures f.Unreadable? ==> r.Err?
    ensures f.Present? ==> r == FromJson(f.value)
  {
    match f
    case Absent => Ok(DefaultGrokSettings)
    case Unreadable => Err(Io("cannot read user-settings.json"))
    case Present(v) => FromJson(v)
  }

  /** `read_mcp_servers_map`: the `mcpServers` entries, empty when there are none. */
  function ReadMcpServersMap(f: FileState<Json>): (r: Result<map<string, Json>>)
    ensures r.Ok? <==> ReadGrokSettings(f).Ok?
    ensures r.Ok? && ReadGrokSettings(f).value.mcpServers.None? ==> r.value == map[]
    ensures f.Absent? ==> r == Ok(map[])
  {
    var s := ReadGrokSettings(f);
    if s.Err? then Err(s.error) else Ok(s.value.mcpServers.UnwrapOr(map[]))
  }

  /** `write_grok_settings`: the file holds the settings' JSON form. */
  method WriteGrokSettings(fs: FileSystem, s: GrokSettings)
    modifies fs
    ensures fs.files == old(fs.files).(grokSettings := Present(ToJson(s)))
  {
    fs.files := fs.files.(grokSettings := Present(ToJson(s)));
  }

  /** The user-interface fields `set_mcp_servers_map` strips from every entry. */
  const UiKeys: set<string> := {"enabled", "source", "id", "name", "description", "tags", "homepage", "docs"}

  /**
   * One entry `id` as written to `mcpServers`: the spec must be an object; a
   * nested `server` object replaces it (and must be an object); then the UI
   * fields go. Both errors name the entry.
   */
  function LiveEntry(id: string, spec: Json): (r: Result<map<string, Json>>)
    ensures r.Ok? <==> spec.JObj? && ("server" in spec.fields ==> spec.fields["server"].JObj?)
    ensures r.Ok? ==> forall k :: k in r.value ==> k !in UiKeys
    ensures r.Ok? && "server" !in spec.fields ==> r.value == spec.fields - UiKeys
    ensures r.Ok? && "server" in spec.fields ==> r.value == spec.fields["server"].fields - UiKeys
    ensures !spec.JObj? ==> r == Err(McpValidation("MCP 服务器 '" + id + "' 不是对象"))
    ensures spec.JObj? && r.Err? ==> r == Err(McpValidation("MCP 服务器 '" + id + "' server 字段不是对象"))
  {
    if !spec.JObj? then Err(McpValidation("MCP 服务器 '" + id + "' 不是对象"))
    else if "server" in spec.fields then
      if spec.fields["server"].JObj? then Ok(spec.fields["server"].fields - UiKeys)
      else Err(McpValidation("MCP 服务器 '" + id + "' server 字段不是对象"))
    else Ok((spec.fields - {"server"}) - UiKeys)
  }

  /** `e` is the error of some entry of `servers` that cannot be written. */
  ghost predicate EntryError(servers: map<string, Json>, e: Error)
  {
    exists id :: id in servers && LiveEntry(id, servers[id]) == Err(e)
  }

  /** Every entry can be written. */
  predicate AllEntriesValid(servers: map<string, Json>)
  {
    forall id :: id in servers ==> LiveEntry(id, servers[id]).Ok?
  }

  /** The `mcpServers` map written for `servers`. */
  function LiveEntries(servers: map<string, Json>): (r: map<string, Json>)
    requires AllEntriesValid(servers)
    ensures r.Keys == servers.Keys
    ensures forall id :: id in r ==> r[id] == JObj(LiveEntry(id, servers[id]).value)
  {
    map id | id in servers :: JObj(LiveEntry(id, servers[id]).value)
  }

  /**
   * `set_mcp_servers_map`: read the settings, convert every entry, and write the
   * settings back with `mcpServers` replaced. Any failure writes nothing.
   */
  method SetMcpServersMap(fs: FileSystem, servers: map<string, Json>) returns (r: Result<()>)
    modifies fs
    ensures r.Ok? <==> ReadGrokSettings(old(fs.files.grokSettings)).Ok? && AllEntriesValid(servers)
    ensures r.Err? ==> fs.files == old(fs.files)
    ensures ReadGrokSettings(old(fs.files.grokSettings)).Err? ==> r == Err(ReadGrokSettings(old(fs.files.grokSettings)).error)
    ensures ReadGrokSettings(old(fs.files.grokSettings)).Ok? && r.Err? ==> EntryError(servers, r.error)
    ensures r.Ok? ==> fs.files == old(fs.files).(grokSettings := Present(ToJson(
      ReadGrokSettings(old(fs.files.grokSettings)).value.(mcpServers := Some(LiveEntries(servers))))))
  {
    var settings := ReadGrokSettings(fs.files.grokSettings);
    if settings.Err? {
      return Err(settings.error);
    }
    var out: map<string, Json> := map[];
    var rest := servers.Keys;
    while rest != {}
      invariant rest <= servers.Keys
      invariant out.Keys == servers.Keys - rest
      invariant forall id :: id in out ==> LiveEntry(id, servers[id]).Ok? && out[id] == JObj(LiveEntry(id, servers[id]).value)
      decreases rest
    {
      var id :| id in rest;
      var entry := LiveEntry(id, servers[id]);
      if entry.Err? {
        return Err(entry.error);
      }
      out := out[id := JObj(entry.value)];
      rest := rest - {id};
    }
    assert out == LiveEntries(servers);
    WriteGrokSettings(fs, settings.value.(mcpServers := Some(out)));
    r := Ok(());
  }

  /** After a successful projection, reading the map back gives exactly the converted entries. */
  lemma SetThenRead(before: FileState<Json>, servers: map<string, Json>)
    requires ReadGrokSettings(before).Ok? && AllEntriesValid(servers)
    ensures ReadMcpServersMap(Present(ToJson(ReadGrokSettings(before).value.(mcpServers := Some(LiveEntries(servers))))))
      == Ok(LiveEntries(servers))
  {
    var s := ReadGrokSettings(before).value.(mcpServers := Some(LiveEntries(servers)));
    RoundTrip(s);
  }
}
