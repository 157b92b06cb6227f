/**
 * Codex's MCP projection (mcp/codex.rs): the import of the `[mcp_servers]`
 * and legacy `[mcp.servers]` tables of `~/.codex/config.toml`, the rewrite of
 * `[mcp_servers]` from the enabled entries or from one server, and the
 * removal of one server. The text is parsed and rendered by parameters;
 * documents are `TomlDoc` maps, so the key order and the formatting that
 * `toml_edit` keeps are not part of the model.
 */
module McpCodex {
  import opened Wrappers
  import opened Values
  import opened Records
  import opened Text
  import opened LiveFiles
  import opened Sorting
  import opened McpImport
  import opened CodexConvert
  import opened Collections

  // ---------------------------------------------------------------------------
  // The document
  // ---------------------------------------------------------------------------

  /**
   * `codex_config::read_and_validate_codex_config_text`: a missing file reads
   * as empty text; unreadable text is an I/O error; text that is neither blank
   * nor valid TOML is a configuration error.
   */
  function ReadConfigText(f: FileState<string>, parse: TomlParser): (r: Result<string>)
    ensures r.Ok? <==> f.Absent? || (f.Present? && (IsBlank(f.value) || parse(f.value).Some?))
    ensures r.Ok? && f.Absent? ==> r.value == ""
    ensures r.Ok? && f.Present? ==> r.value == f.value
    ensures r.Err? && f.Unreadable? ==> r.error.Io?
  {
    match f
    case Absent => Ok("")
    case Unreadable => Err(Io("cannot read ~/.codex/config.toml"))
    case Present(t) => if IsBlank(t) || parse(t).Some? then Ok(t) else Err(Config("invalid ~/.codex/config.toml"))
  }

  /** The document of validated text: blank text is the empty document. */
  function BaseDoc(text: string, parse: TomlParser): TomlDoc
    requires IsBlank(text) || parse(text).Some?
  {
    if IsBlank(text) then map[] else parse(text).value
  }

  /** The `[mcp_servers]` table of a document; anything else reads as no servers. */
  function CurrentServers(doc: TomlDoc): map<string, Toml>
  {
    if "mcp_servers" in doc && doc["mcp_servers"].TTable? then doc["mcp_servers"].entries else map[]
  }

  /** The legacy `[mcp.servers]` table of a document, when both levels are tables. */
  function LegacyServers(doc: TomlDoc): map<string, Toml>
  {
    if "mcp" in doc && doc["mcp"].TTable? && "servers" in doc["mcp"].entries && doc["mcp"].entries["servers"].TTable?
    then doc["mcp"].entries["servers"].entries
    else map[]
  }

  /** The cleanup of the legacy `[mcp.servers]` table: the `servers` key leaves a table `mcp`. */
  function WithoutLegacy(doc: TomlDoc): (d: TomlDoc)
    ensures d.Keys == doc.Keys
    ensures LegacyServers(d) == map[]
    ensures forall k :: k in doc && k != "mcp" ==> d[k] == doc[k]
    ensures "mcp" in doc && doc["mcp"].TTable? ==> d["mcp"].TTable? && d["mcp"].entries == doc["mcp"].entries - {"servers"}
    ensures "mcp" in doc && !doc["mcp"].TTable? ==> d["mcp"] == doc["mcp"]
  {
    if "mcp" in doc && doc["mcp"].TTable? && "servers" in doc["mcp"].entries
    then doc["mcp" := TTable(doc["mcp"].entries - {"servers"})]
    else doc
  }

  /** Cleaning up twice is cleaning up once. */
  lemma WithoutLegacyIdempotent(doc: TomlDoc)
    ensures WithoutLegacy(WithoutLegacy(doc)) == WithoutLegacy(doc)
  {
    var once := WithoutLegacy(doc);
    if "mcp" in once && once["mcp"].TTable? {
      assert "servers" !in once["mcp"].entries;
    }
  }

  // ---------------------------------------------------------------------------
  // Import
  // ---------------------------------------------------------------------------

  /** The spec of one servers-table entry: a table of a known type, converted. */
  function EntryOf(t: Toml): (r: Option<Json>)
    ensures r.Some? <==> t.TTable? && KnownType(EntryType(t.entries))
  {
    if t.TTable? then EntrySpec(t.entries) else None
  }

  /**
   * The specs of a servers table: every entry that is a table of a known type,
   * converted; entries that are not tables and entries of unknown type are
   * skipped.
   */
  function CodexSpecs(tbl: map<string, Toml>): (specs: map<string, Json>)
    ensures forall id :: id in specs <==> id in tbl && tbl[id].TTable? && KnownType(EntryType(tbl[id].entries))
    ensures forall id :: id in specs ==> EntrySpec(tbl[id].entries) == Some(specs[id])
  {
    FilterValues(tbl, EntryOf)
  }

  /** The conversion loop over one servers table. */
  method CollectCodexSpecs(tbl: map<string, Toml>) returns (specs: map<string, Json>)
    ensures specs == CodexSpecs(tbl)
  {
    specs := CollectSome(tbl, EntryOf);
  }

  /** An entry of unknown type has no effect on the import of its table. */
  lemma UnknownEntryIgnored(tbl: map<string, Toml>, id: string)
    requires id in tbl && tbl[id].TTable? && !KnownType(EntryType(tbl[id].entries))
    ensures CodexSpecs(tbl) == CodexSpecs(tbl - {id})
  {
    assert CodexSpecs(tbl).Keys == CodexSpecs(tbl - {id}).Keys;
  }

  /**
   * The import of one servers table as `import_from_codex` writes it, with the
   * entries visited in `order`: the first entry of unknown type ends the
   * table (`return changed`), so the entries after it are not imported.
   */
  function ImportTableAsWritten(servers: map<string, McpServer>, tbl: map<string, Toml>, order: seq<string>,
                                valid: Json -> bool): (r: (map<string, McpServer>, nat))
    ensures servers.Keys <= r.0.Keys
    ensures r.1 <= |order|
    decreases |order|
  {
    if order == [] then (servers, 0)
    else
      var id := order[0];
      if id !in tbl || !tbl[id].TTable? then ImportTableAsWritten(servers, tbl, order[1..], valid)
      else
        var spec := EntrySpecAsWritten(tbl[id].entries);
        if spec.None? then (servers, 0)
        else if !valid(spec.value) then ImportTableAsWritten(servers, tbl, order[1..], valid)
        else
          var rest := ImportTableAsWritten(servers[id := Imported1(servers, id, spec.value, Codex)], tbl, order[1..], valid);
          (rest.0, rest.1 + if Counts(servers, id, Codex) then 1 else 0)
  }

  /**
   * A table whose first entry (`a`, of type `ws`) is unknown and whose second
   * (`b`, a stdio server) is valid: as written, `b` is lost; skipping the
   * unknown entry, as the log message says, imports it.
   */
  lemma UnknownEntryStopsTable()
    ensures var tbl := map["a" := TTable(map["type" := TStr("ws")]),
                           "b" := TTable(map["type" := TStr("stdio"), "command" := TStr("x")])];
      "b" !in ImportTableAsWritten(map[], tbl, ["a", "b"], _ => true).0 &&
      "b" in ImportAll(map[], CodexSpecs(tbl), Codex, _ => true)
  {
    var tbl := map["a" := TTable(map["type" := TStr("ws")]),
                   "b" := TTable(map["type" := TStr("stdio"), "command" := TStr("x")])];
    assert EntryType(tbl["a"].entries) == "ws";
    assert EntrySpecAsWritten(tbl["a"].entries).None?;
    assert EntryType(tbl["b"].entries) == "stdio";
    assert "b" in CodexSpecs(tbl);
  }

  /**
   * The servers and the count after importing a parsed document into
   * `servers`: the legacy `[mcp.servers]` table first, `[mcp_servers]` second.
   */
  function ImportDoc(servers: map<string, McpServer>, doc: TomlDoc, valid: Json -> bool): (map<string, McpServer>, nat)
  {
    var legacy := CodexSpecs(LegacyServers(doc));
    var current := CodexSpecs(CurrentServers(doc));
    var first := ImportAll(servers, legacy, Codex, valid);
    (ImportAll(first, current, Codex, valid),
     |CountedIds(servers, legacy, Codex, valid)| + |CountedIds(first, current, Codex, valid)|)
  }

  /**
   * `import_from_codex`: blank text imports nothing; otherwise the legacy
   * `[mcp.servers]` table is imported first and `[mcp_servers]` second, each
   * entry enabling Codex, and the servers map exists afterwards.
   */
  method ImportFromCodex(fs: FileSystem, config: McpConfig, parse: TomlParser, valid: Json -> bool)
    returns (out: McpConfig, r: Result<nat>)
    ensures r.Err? <==> ReadConfigText(fs.files.codexConfig, parse).Err?
    ensures r.Err? ==> out == config && r.error == ReadConfigText(fs.files.codexConfig, parse).error
    ensures r.Ok? && IsBlank(ReadConfigText(fs.files.codexConfig, parse).value) ==> out == config && r.value == 0
    ensures r.Ok? && !IsBlank(ReadConfigText(fs.files.codexConfig, parse).value) ==>
      var doc := parse(ReadConfigText(fs.files.codexConfig, parse).value).value;
      out == config.(servers := Some(ImportDoc(config.Servers(), doc, valid).0)) &&
      r.value == ImportDoc(config.Servers(), doc, valid).1
  {
    var text := ReadConfigText(fs.files.codexConfig, parse);
    if text.Err? {
      return config, Err(text.error);
    }
    if IsBlank(text.value) {
      return config, Ok(0);
    }
    var doc := parse(text.value).value;
    var legacy := CollectCodexSpecs(LegacyServers(doc));
    var current := CollectCodexSpecs(CurrentServers(doc));
    var changed1, changed2;
    out, changed1 := ImportInto(config, legacy, Codex, valid);
    out, changed2 := ImportInto(out, current, Codex, valid);
    r := Ok(changed1 + changed2);
  }

  // ---------------------------------------------------------------------------
  // Export
  // ---------------------------------------------------------------------------

  /** One server as the sub-table `json_server_to_toml_table` builds. */
  function ServerItem(toFloat: int -> Float): Json -> Toml
  {
    spec => TTable(ServerTable(spec, toFloat))
  }

  /** The `[mcp_servers]` table of the enabled specs: one sub-table per id. */
  function ServersTable(enabled: map<string, Json>, toFloat: int -> Float): (t: map<string, Toml>)
    ensures t.Keys == enabled.Keys
    ensures forall id :: id in t ==> t[id] == TTable(ServerTable(enabled[id], toFloat))
  {
    MapValues(enabled, ServerItem(toFloat))
  }

  /** The loop over the sorted ids that builds the `[mcp_servers]` table. */
  method BuildServersTable(enabled: map<string, Json>, toFloat: int -> Float) returns (t: map<string, Toml>)
    ensures t == ServersTable(enabled, toFloat)
  {
    var ids := Ordered(enabled.Keys, (id: string) => [KStr(id)]);
    t := VisitMap(enabled, ids, ServerItem(toFloat));
  }

  /**
   * The document `sync_enabled_to_codex` writes, given the table built from
   * the enabled specs: the legacy table cleaned up, `[mcp_servers]` removed
   * when the table is empty and replaced by it otherwise.
   */
  function SyncedDoc(doc: TomlDoc, table: map<string, Toml>): (d: TomlDoc)
    ensures LegacyServers(d) == map[]
    ensures table == map[] <==> "mcp_servers" !in d
    ensures CurrentServers(d) == table
    ensures forall k :: k != "mcp" && k != "mcp_servers" ==> (k in d <==> k in doc) && (k in d ==> d[k] == doc[k])
  {
    var cleaned := WithoutLegacy(doc);
    if table == map[] then cleaned - {"mcp_servers"}
    else cleaned["mcp_servers" := TTable(table)]
  }

  /**
   * Importing the table `sync_enabled_to_codex` writes gives back the enabled
   * specs, when each of them is in the shape the import produces.
   */
  lemma ServersTableImports(enabled: map<string, Json>, toFloat: int -> Float)
    requires forall id :: id in enabled ==> Canonical(enabled[id])
    ensures CodexSpecs(ServersTable(enabled, toFloat)) == enabled
  {
    forall id | id in enabled
      ensures EntryOf(ServerItem(toFloat)(enabled[id])) == Some(enabled[id])
    {
      ItemRoundTrip(enabled[id], toFloat);
    }
    FilterAfterMap(enabled, ServerItem(toFloat), EntryOf);
  }

  /** One canonical server, written as a sub-table, reads back as itself. */
  lemma ItemRoundTrip(spec: Json, toFloat: int -> Float)
    requires Canonical(spec)
    ensures EntryOf(ServerItem(toFloat)(spec)) == Some(spec)
  {
    ServerRoundTrip(spec, toFloat);
  }

  /**
   * `sync_enabled_to_codex`: the enabled legacy entries for Codex become the
   * `[mcp_servers]` table; text that is not valid TOML is an error and nothing
   * is written.
   */
  method SyncEnabledToCodex(fs: FileSystem, config: McpConfig, extract: Json -> Result<Json>, parse: TomlParser,
                            render: TomlDoc -> string, toFloat: int -> Float) returns (r: Result<()>)
    modifies fs
    ensures r.Ok? <==> ReadConfigText(old(fs.files.codexConfig), parse).Ok?
    ensures r.Err? ==> fs.files == old(fs.files)
    ensures r.Ok? ==>
      var text := ReadConfigText(old(fs.files.codexConfig), parse).value;
      fs.files == old(fs.files).(codexConfig := Present(render(SyncedDoc(BaseDoc(text, parse), ServersTable(EnabledSpecs(config.codex, extract), toFloat)))))
  {
    var enabled := CollectEnabledServers(config.codex, extract);
    var text := ReadConfigText(fs.files.codexConfig, parse);
    if text.Err? {
      return Err(text.error);
    }
    var doc := BaseDoc(text.value, parse);
    var table := BuildServersTable(enabled, toFloat);
    fs.files := fs.files.(codexConfig := Present(render(SyncedDoc(doc, table))));
    r := Ok(());
  }

  // ---------------------------------------------------------------------------
  // One server
  // ---------------------------------------------------------------------------

  /**
   * The document `sync_single_server_to_codex` writes: the legacy table
   * cleaned up and `[mcp_servers.<id>]` set, creating `[mcp_servers]` when
   * missing. An `mcp_servers` key that is not a table makes the source panic;
   * here it is an error.
   */
  function SingleSyncedDoc(doc: TomlDoc, id: string, table: map<string, Toml>): (r: Result<TomlDoc>)
    ensures r.Ok? <==> "mcp_servers" !in doc || doc["mcp_servers"].TTable?
    ensures r.Ok? ==> LegacyServers(r.value) == map[]
    ensures r.Ok? ==> CurrentServers(r.value) == CurrentServers(doc)[id := TTable(table)]
    ensures r.Ok? ==> forall k :: k != "mcp" && k != "mcp_servers" ==> (k in r.value <==> k in doc) && (k in r.value ==> r.value[k] == doc[k])
  {
    var cleaned := WithoutLegacy(doc);
    var servers := if "mcp_servers" in cleaned then cleaned["mcp_servers"] else TTable(map[]);
    if !servers.TTable? then Err(Message("[mcp_servers] is not a table"))
    else Ok(cleaned["mcp_servers" := TTable(servers.entries[id := TTable(table)])])
  }

  /** The sync's error for a `config.toml` that does not parse; the parser's own message is not modelled. */
  const CodexParseFailed: Error := McpValidation("解析 Codex config.toml 失败")

  /** `sync_single_server_to_codex`: the file's `[mcp_servers]` gains or replaces exactly `id`. */
  method SyncSingleServerToCodex(fs: FileSystem, id: string, spec: Json, parse: TomlParser,
                                 render: TomlDoc -> string, toFloat: int -> Float) returns (r: Result<()>)
    modifies fs
    ensures old(fs.files.codexConfig).Unreadable? ==> r.Err? && r.error.Io?
    ensures old(fs.files.codexConfig).Present? && parse(old(fs.files.codexConfig).value).None? ==> r == Err(CodexParseFailed)
    ensures r.Err? ==> fs.files == old(fs.files)
    ensures
      var doc := match old(fs.files.codexConfig) case Present(t) => parse(t) case _ => Some(map[]);
      r.Ok? <==> (!old(fs.files.codexConfig).Unreadable? && doc.Some? && SingleSyncedDoc(doc.value, id, ServerTable(spec, toFloat)).Ok?)
    ensures r.Ok? ==>
      var doc := match old(fs.files.codexConfig) case Present(t) => parse(t).value case _ => map[];
      fs.files == old(fs.files).(codexConfig := Present(render(SingleSyncedDoc(doc, id, ServerTable(spec, toFloat)).value)))
  {
    var doc: TomlDoc;
    match fs.files.codexConfig {
      case Absent =>
        doc := map[];
      case Unreadable =>
        return Err(Io("cannot read ~/.codex/config.toml"));
      case Present(t) =>
        var parsed := parse(t);
        if parsed.None? {
          return Err(CodexParseFailed);
        }
        doc := parsed.value;
    }
    var table := JsonServerToTomlTable(spec, toFloat);
    var synced := SingleSyncedDoc(doc, id, table);
    if synced.Err? {
      return Err(synced.error);
    }
    fs.files := fs.files.(codexConfig := Present(render(synced.value)));
    r := Ok(());
  }

  /**
   * The document `remove_server_from_codex` writes: `id` leaves `[mcp_servers]`
   * and the legacy `[mcp.servers]`, and nothing else changes.
   */
  function RemovedDoc(doc: TomlDoc, id: string): (d: TomlDoc)
    ensures d.Keys == doc.Keys
    ensures CurrentServers(d) == CurrentServers(doc) - {id}
    ensures LegacyServers(d) == LegacyServers(doc) - {id}
    ensures forall k :: k in doc && k != "mcp" && k != "mcp_servers" ==> d[k] == doc[k]
  {
    var d1 := if "mcp_servers" in doc && doc["mcp_servers"].TTable?
              then doc["mcp_servers" := TTable(doc["mcp_servers"].entries - {id})]
              else doc;
    if LegacyServers(d1) != map[] || ("mcp" in d1 && d1["mcp"].TTable? && "servers" in d1["mcp"].entries && d1["mcp"].entries["servers"].TTable?)
    then d1["mcp" := TTable(d1["mcp"].entries["servers" := TTable(LegacyServers(d1) - {id})])]
    else d1
  }

  /** Removing after a single sync leaves no trace of `id` in either servers table. */
  lemma SyncSingleThenRemove(doc: TomlDoc, id: string, table: map<string, Toml>)
    requires SingleSyncedDoc(doc, id, table).Ok?
    ensures var d := RemovedDoc(SingleSyncedDoc(doc, id, table).value, id);
      CurrentServers(d) == CurrentServers(doc) - {id} && LegacyServers(d) == map[]
  {
    var synced := SingleSyncedDoc(doc, id, table).value;
    assert CurrentServers(synced) - {id} == CurrentServers(doc) - {id};
  }

  /** A single sync of a canonical spec imports back as that spec. */
  lemma SyncSingleImports(doc: TomlDoc, id: string, spec: Json, toFloat: int -> Float)
    requires SingleSyncedDoc(doc, id, ServerTable(spec, toFloat)).Ok?
    requires Canonical(spec)
    ensures var specs := CodexSpecs(CurrentServers(SingleSyncedDoc(doc, id, ServerTable(spec, toFloat)).value));
      id in specs && specs[id] == spec
  {
    var tbl := CurrentServers(SingleSyncedDoc(doc, id, ServerTable(spec, toFloat)).value);
    assert tbl[id] == TTable(ServerTable(spec, toFloat));
    ServerRoundTrip(spec, toFloat);
    assert EntryOf(tbl[id]) == Some(spec);
  }

  /**
   * `remove_server_from_codex`: a missing file is left alone; otherwise the
   * document without `id` is written back.
   */
  method RemoveServerFromCodex(fs: FileSystem, id: string, parse: TomlParser, render: TomlDoc -> string)
    returns (r: Result<()>)
    modifies fs
    ensures r.Ok? <==> old(fs.files.codexConfig).Absent? ||
                       (old(fs.files.codexConfig).Present? && parse(old(fs.files.codexConfig).value).Some?)
    ensures old(fs.files.codexConfig).Unreadable? ==> r.Err? && r.error.Io?
    ensures r.Err? || old(fs.files.codexConfig).Absent? ==> fs.files == old(fs.files)
    ensures r.Ok? && old(fs.files.codexConfig).Present? ==>
      fs.files == old(fs.files).(codexConfig := Present(render(RemovedDoc(parse(old(fs.files.codexConfig).value).value, id))))
  {
    match fs.files.codexConfig
    case Absent =>
      return Ok(());
    case Unreadable =>
      return Err(Io("cannot read ~/.codex/config.toml"));
    case Present(t) =>
      var parsed := parse(t);
      if parsed.None? {
        return Err(CodexParseFailed);
      }
      fs.files := fs.files.(codexConfig := Present(render(RemovedDoc(parsed.value, id))));
      r := Ok(());
  }
}
