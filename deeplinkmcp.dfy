/**
 * Importing MCP servers from a deep link (deeplink/mcp.rs): the `apps` list
 * becomes the target flags, the Base64 `config` parameter is decoded to a JSON
 * object of servers, and each server is upserted — an id already stored only
 * gains the target flags, a new id is created from the link. A server whose
 * upsert fails is reported and the batch goes on.
 */
module DeepLinkMcp {
  import opened Wrappers
  import opened Values
  import opened Records
  import opened Text
  import opened Sorting
  import opened Store
  import opened LiveFiles
  import opened McpService
  import opened DeepLinkUtils
  import opened DeepLinkParser

  // ---------------------------------------------------------------------------
  // parse_mcp_apps
  // ---------------------------------------------------------------------------

  /** The flags the items set, left to right from `acc`; the first unknown name is an error. */
  function FoldApps(items: seq<string>, acc: McpApps): Result<McpApps>
    decreases |items|
  {
    if items == [] then Ok(acc)
    else match ParseApp(Trim(items[0]))
      case None => Err(InvalidInput("Invalid app in 'apps': " + Trim(items[0])))
      case Some(a) => FoldApps(items[1..], acc.Set(a, true))
  }

  /** `parse_mcp_apps`: the flags named by the comma-separated, trimmed items. */
  function McpAppsOf(s: string): Result<McpApps>
  {
    FoldApps(Split(s, ','), NoApps)
  }

  /** An item names `a`. */
  predicate Names(item: string, a: AppType)
  {
    ParseApp(Trim(item)) == Some(a)
  }

  /** The fold succeeds exactly when every item names an application. */
  lemma {:induction false} FoldAppsOk(items: seq<string>, acc: McpApps)
    ensures FoldApps(items, acc).Ok? <==> forall i :: 0 <= i < |items| ==> ParseApp(Trim(items[i])).Some?
    ensures FoldApps(items, acc).Err? ==> FoldApps(items, acc).error.InvalidInput?
    decreases |items|
  {
    if items != [] && ParseApp(Trim(items[0])).Some? {
      FoldAppsOk(items[1..], acc.Set(ParseApp(Trim(items[0])).value, true));
      assert forall i :: 1 <= i < |items| ==> items[1..][i - 1] == items[i];
    }
  }

  /** A successful fold sets the flags of `acc` and of every item, and no other. */
  lemma {:induction false} FoldAppsFlags(items: seq<string>, acc: McpApps, b: AppType)
    requires FoldApps(items, acc).Ok?
    ensures FoldApps(items, acc).value.Get(b) <==> acc.Get(b) || exists i :: 0 <= i < |items| && Names(items[i], b)
    decreases |items|
  {
    if items != [] {
      var a := ParseApp(Trim(items[0])).value;
      var rest := items[1..];
      FoldAppsFlags(rest, acc.Set(a, true), b);
      if exists i :: 0 <= i < |items| && Names(items[i], b) {
        var i :| 0 <= i < |items| && Names(items[i], b);
        if i > 0 {
          assert Names(rest[i - 1], b);
        }
      }
      if exists i :: 0 <= i < |rest| && Names(rest[i], b) {
        var i :| 0 <= i < |rest| && Names(rest[i], b);
        assert Names(items[i + 1], b);
      }
    }
  }

  /**
   * `parse_mcp_apps` accepts exactly the lists whose every item names one of
   * the five applications; the flags are then exactly the named ones, and at
   * least one is set.
   */
  lemma McpAppsFacts(s: string)
    ensures McpAppsOf(s).Ok? <==> forall item :: item in Split(s, ',') ==> ParseApp(Trim(item)).Some?
    ensures McpAppsOf(s).Ok? ==> forall a ::
      McpAppsOf(s).value.Get(a) <==> exists item :: item in Split(s, ',') && Names(item, a)
    ensures McpAppsOf(s).Ok? ==> !McpAppsOf(s).value.IsEmpty()
    ensures McpAppsOf(s).Err? ==> McpAppsOf(s).error.InvalidInput?
  {
    var items := Split(s, ',');
    FoldAppsOk(items, NoApps);
    if McpAppsOf(s).Ok? {
      var a := ParseApp(Trim(items[0])).value;
      assert Names(items[0], a);
      FoldAppsFlags(items, NoApps, a);
      assert McpAppsOf(s).value.Get(a);
      forall b
        ensures McpAppsOf(s).value.Get(b) <==> exists item :: item in items && Names(item, b)
      {
        FoldAppsFlags(items, NoApps, b);
        if exists item :: item in items && Names(item, b) {
          var item :| item in items && Names(item, b);
          var i :| 0 <= i < |items| && items[i] == item;
        }
      }
    }
  }

  /** The loop of `parse_mcp_apps`: one flag set per item. */
  method ParseMcpApps(s: string) returns (r: Result<McpApps>)
    ensures r == McpAppsOf(s)
  {
    var apps := NoApps;
    var items := Split(s, ',');
    for i := 0 to |items|
      invariant FoldApps(items[i..], apps) == McpAppsOf(s)
    {
      assert items[i..][1..] == items[i + 1..];
      var trimmed := Trim(items[i]);
      match ParseApp(trimmed) {
        case None => return Err(InvalidInput("Invalid app in 'apps': " + trimmed));
        case Some(a) => apps := apps.Set(a, true);
      }
    }
    r := Ok(apps);
  }

  /**
   * Every `apps` list the link parser lets through is accepted here too, and
   * never targets Grok or Qwen (this function also accepts those two names).
   */
  lemma LinkAppsAccepted(apps: string)
    requires AppsListValid(apps)
    ensures McpAppsOf(apps).Ok?
    ensures !McpAppsOf(apps).value.grok && !McpAppsOf(apps).value.qwen
  {
    McpAppsFacts(apps);
    forall item | item in Split(apps, ',')
      ensures ParseApp(Trim(item)).Some? && !Names(item, Grok) && !Names(item, Qwen)
    {
      assert Trim(item) in LinkApps;
    }
    assert !McpAppsOf(apps).value.Get(Grok) && !McpAppsOf(apps).value.Get(Qwen);
  }

  /** `claude,codex` sets those two flags only. */
  lemma McpAppsPairExample()
    ensures McpAppsOf("claude,codex") == Ok(NoApps.(claude := true, codex := true))
  {
    SplitPair();
    TrimName("claude");
    TrimName("codex");
    var items := ["claude", "codex"];
    var one := NoApps.Set(Claude, true);
    assert FoldApps(items, NoApps) == FoldApps(items[1..], one);
    assert items[1..] == ["codex"];
    assert FoldApps(["codex"], one) == FoldApps([], one.Set(Codex, true));
    AppsExt(one.Set(Codex, true), NoApps.(claude := true, codex := true));
  }

  /** An application name has no whitespace to trim. */
  lemma TrimName(s: string)
    requires s in {"claude", "codex", "gemini", "grok", "qwen", "invalid"}
    ensures Trim(s) == s
  {
    assert !IsWhitespace(s[0]) && !IsWhitespace(s[|s| - 1]);
  }

  lemma SplitPair()
    ensures Split("claude,codex", ',') == ["claude", "codex"]
  {
    var s := "claude,codex";
    assert s[6] == ',' && ',' !in s[..6];
    assert IndexOf(s, ',') == 6;
    assert s[..6] == "claude" && s[7..] == "codex";
    assert ',' !in "codex";
  }

  /** `gemini` sets that flag only, and `invalid` is refused. */
  lemma McpAppsSingleExamples()
    ensures McpAppsOf("gemini") == Ok(NoApps.(gemini := true))
    ensures McpAppsOf("invalid").Err?
  {
    assert ',' !in "gemini" && ',' !in "invalid";
    TrimName("gemini");
    TrimName("invalid");
    AppsExt(NoApps.Set(Gemini, true), NoApps.(gemini := true));
  }

  // ---------------------------------------------------------------------------
  // import_mcp_from_deeplink
  // ---------------------------------------------------------------------------

  /** `McpImportError`: a server the batch could not upsert, with the reason. */
  datatype ImportFailure = ImportFailure(id: string, error: Error)

  /** `McpImportResult` */
  datatype McpImportResult = McpImportResult(importedCount: nat, importedIds: seq<string>, failed: seq<ImportFailure>)

  /** `serde_json::from_str` */
  type JsonReader = string -> Reading<Json>

  /** What the import decodes from the request: the target flags and the servers by id. */
  datatype Payload = Payload(target: McpApps, servers: map<string, Json>)

  /**
   * The checks before any server is touched: the resource, the `apps` list,
   * the `config` parameter decoded from Base64, then as UTF-8, then as JSON,
   * whose `mcpServers` must be a non-empty object.
   */
  function ImportPayload(q: ImportRequest, decode: Decoder, utf8: Utf8Decoder, readJson: JsonReader): (r: Result<Payload>)
    ensures r.Ok? ==> q.resource == "mcp" && q.apps.Some? && McpAppsOf(q.apps.value) == Ok(r.value.target)
    ensures r.Ok? ==> q.config.Some? && |r.value.servers| > 0
    ensures r.Ok? ==> !r.value.target.IsEmpty()
    ensures r.Err? ==> r.error.InvalidInput?
  {
    if q.resource != "mcp" then Err(InvalidInput("Expected mcp resource, got '" + q.resource + "'"))
    else if q.apps.None? then Err(InvalidInput("Missing 'apps' parameter for MCP"))
    else
      var target := McpAppsOf(q.apps.value);
      McpAppsFacts(q.apps.value);
      if target.Err? then Err(target.error)
      else if q.config.None? then Err(InvalidInput("Missing 'config' parameter for MCP"))
      else
        var bytes := DecodeParam("config", q.config.value, decode);
        if bytes.Err? then Err(bytes.error)
        else match utf8(bytes.value)
          case Unreadable(e) => Err(InvalidInput("Invalid UTF-8 in config: " + e))
          case Read(text) =>
            match readJson(text)
            case Unreadable(e) => Err(InvalidInput("Invalid JSON in MCP config: " + e))
            case Read(json) =>
              var servers := Get(json, "mcpServers");
              if servers.None? || !servers.value.JObj? then
                Err(InvalidInput("MCP config must contain 'mcpServers' object"))
              else if servers.value.fields == map[] then Err(InvalidInput("No MCP servers found in config"))
              else Ok(Payload(target.value, servers.value.fields))
  }

  /**
   * The server the import upserts for `id`: a stored one keeps its
   * definition and metadata and gains the target flags; a new one is named
   * after its id, runs the linked definition for the target applications and
   * is tagged `imported`.
   */
  function Merged(existing: Option<McpServer>, id: string, spec: Json, target: McpApps): (s: McpServer)
    ensures s.id == (if existing.Some? then existing.value.id else id)
    ensures existing.Some? ==> s == existing.value.(apps := existing.value.apps.Or(target))
    ensures existing.None? ==> s == McpServer(id, id, spec, target, None, None, None, ["imported"])
    ensures forall a :: target.Get(a) ==> s.apps.Get(a)
  {
    match existing
    case Some(e) => e.(apps := e.apps.Or(target))
    case None => McpServer(id, id, spec, target, None, None, None, ["imported"])
  }

  /** Two flag sets that agree on every application are the same. */
  lemma AppsExt(x: McpApps, y: McpApps)
    requires forall a :: x.Get(a) == y.Get(a)
    ensures x == y
  {
    assert x.Get(Claude) == y.Get(Claude) && x.Get(Codex) == y.Get(Codex) && x.Get(Gemini) == y.Get(Gemini);
    assert x.Get(Grok) == y.Get(Grok) && x.Get(Qwen) == y.Get(Qwen);
  }

  /**
   * Importing the same link again stores the same server: the second merge
   * finds the first one's result and adds no flag.
   */
  lemma MergedIdempotent(existing: Option<McpServer>, id: string, spec: Json, spec2: Json, target: McpApps)
    ensures Merged(Some(Merged(existing, id, spec, target)), id, spec2, target) == Merged(existing, id, spec, target)
  {
    var s := Merged(existing, id, spec, target);
    AppsExt(s.apps.Or(target), s.apps);
  }

  /** The stored server for `id` in a table of rows, as `get_all_mcp_servers` reads it. */
  function StoredOf(rows: map<string, McpRow>, id: string): Option<McpServer>
  {
    if id in rows then Some(ReadMcp(id, rows[id])) else None
  }

  /** The table after the servers of `ids` were upserted, each merged with the row found before the batch. */
  function ImportedRows(before: map<string, McpRow>, p: Payload, ids: set<string>): (rows: map<string, McpRow>)
    requires ids <= p.servers.Keys
    ensures rows.Keys == before.Keys + ids
  {
    map id | id in before.Keys + ids ::
      if id in ids then McpRowOf(Merged(StoredOf(before, id), id, p.servers[id], p.target)) else before[id]
  }

  /**
   * After the batch every server of the link is stored, merged with what was
   * stored before; every other row is as it was.
   */
  lemma ImportedRowsRead(before: map<string, McpRow>, p: Payload)
    ensures forall id :: id in p.servers ==>
      StoredOf(ImportedRows(before, p, p.servers.Keys), id) == Some(Merged(StoredOf(before, id), id, p.servers[id], p.target))
    ensures forall id :: id !in p.servers ==> StoredOf(ImportedRows(before, p, p.servers.Keys), id) == StoredOf(before, id)
  {
    forall id | id in p.servers
      ensures StoredOf(ImportedRows(before, p, p.servers.Keys), id) == Some(Merged(StoredOf(before, id), id, p.servers[id], p.target))
    {
      var s := Merged(StoredOf(before, id), id, p.servers[id], p.target);
      McpRoundTrip(s);
    }
  }

  /** The ids a result reports as failed. */
  function FailedIds(failed: seq<ImportFailure>): (ids: seq<string>)
    ensures |ids| == |failed| && forall i :: 0 <= i < |failed| ==> ids[i] == failed[i].id
  {
    if failed == [] then [] else [failed[0].id] + FailedIds(failed[1..])
  }

  /** Each id of the batch is reported once, as imported or as failed, and the ids reported are the batch's. */
  ghost predicate Reported(importedIds: seq<string>, failed: seq<ImportFailure>, ids: set<string>)
  {
    Distinct(importedIds) && Distinct(FailedIds(failed)) &&
    (forall id :: id in importedIds ==> id !in FailedIds(failed)) &&
    (forall id :: id in importedIds || id in FailedIds(failed) <==> id in ids)
  }

  lemma DistinctSnoc<T>(s: seq<T>, x: T)
    requires Distinct(s) && x !in s
    ensures Distinct(s + [x])
  {
  }

  /** Reporting one more id of the batch, as imported or as failed. */
  lemma ReportOne(importedIds: seq<string>, failed: seq<ImportFailure>, ids: set<string>, id: string, ok: bool, e: Error)
    requires Reported(importedIds, failed, ids) && id !in ids
    ensures ok ==> Reported(importedIds + [id], failed, ids + {id})
    ensures !ok ==> Reported(importedIds, failed + [ImportFailure(id, e)], ids + {id})
  {
    var f := failed + [ImportFailure(id, e)];
    assert FailedIds(f) == FailedIds(failed) + [id];
    DistinctSnoc(importedIds, id);
    DistinctSnoc(FailedIds(failed), id);
  }

  /** One upsert of the batch, in the table: the row of `id` becomes the merged server. */
  lemma ImportedRowsStep(before: map<string, McpRow>, p: Payload, ids: set<string>, id: string)
    requires ids <= p.servers.Keys && id in p.servers
    ensures ImportedRows(before, p, ids)[id := McpRowOf(Merged(StoredOf(before, id), id, p.servers[id], p.target))]
      == ImportedRows(before, p, ids + {id})
  {
  }

  /**
   * `import_mcp_from_deeplink`. Before the batch nothing changes and errors
   * are returned; in the batch each server of the link is upserted once, and
   * reported either as imported or as failed.
   */
  method ImportMcpFromDeeplink(db: Database, fs: FileSystem, q: ImportRequest, decode: Decoder,
                               utf8: Utf8Decoder, readJson: JsonReader, c: Codec)
    returns (r: Result<McpImportResult>)
    requires RendersFaithfully(c)
    modifies db, fs
    ensures var p := ImportPayload(q, decode, utf8, readJson);
      (r.Err? <==> p.Err?) &&
      (r.Err? ==> r.error == p.error && db.NoTableChanged() && fs.files == old(fs.files)) &&
      (r.Ok? ==> db.OnlyMcpTable() && db.mcpServers == ImportedRows(old(db.mcpServers), p.value, p.value.servers.Keys)) &&
      (r.Ok? ==> Touched(old(fs.files), fs.files, McpService.AllApps))
    ensures r.Ok? ==>
      r.value.importedCount == |r.value.importedIds| &&
      Reported(r.value.importedIds, r.value.failed, ImportPayload(q, decode, utf8, readJson).value.servers.Keys)
  {
    var payload := Prepare(q, decode, utf8, readJson);
    if payload.Err? {
      return Err(payload.error);
    }
    var p := payload.value;
    var existing := db.GetAllMcpServers();
    forall id
      ensures FindServer(existing, id) == StoredOf(db.mcpServers, id)
    {
      FindStored(db, existing, id);
    }
    var importedIds, failed := ImportAll(db, fs, existing, p, c);
    r := Ok(McpImportResult(|importedIds|, importedIds, failed));
  }

  /**
   * The batch of `import_mcp_from_deeplink`: each server of the link, in the
   * object's order (not part of this model), merged with the stored server
   * listed before the batch and upserted; its id is reported as imported or
   * failed by the outcome of the upsert.
   */
  method ImportAll(db: Database, fs: FileSystem, existing: seq<McpServer>, p: Payload, c: Codec)
    returns (importedIds: seq<string>, failed: seq<ImportFailure>)
    requires RendersFaithfully(c)
    requires forall id :: FindServer(existing, id) == StoredOf(db.mcpServers, id)
    modifies db, fs
    ensures db.OnlyMcpTable() && db.mcpServers == ImportedRows(old(db.mcpServers), p, p.servers.Keys)
    ensures Reported(importedIds, failed, p.servers.Keys)
    ensures Touched(old(fs.files), fs.files, McpService.AllApps)
  {
    ghost var before := db.mcpServers;
    ghost var start := fs.files;
    importedIds := [];
    failed := [];
    var rest := p.servers.Keys;
    ghost var done: set<string> := {};
    while rest != {}
      invariant done + rest == p.servers.Keys && done !! rest
      invariant db.OnlyMcpTable()
      invariant db.mcpServers == ImportedRows(before, p, done)
      invariant Reported(importedIds, failed, done)
      invariant Touched(start, fs.files, McpService.AllApps)
      decreases rest
    {
      var id :| id in rest;
      var server := Merged(FindServer(existing, id), id, p.servers[id], p.target);
      ImportedRowsStep(before, p, done, id);
      ghost var prev := fs.files;
      var saved := UpsertServer(db, fs, server, c);
      StillMcpOnly(start, prev, fs.files, AppSet(server.apps));
      ReportOne(importedIds, failed, done, id, saved.Ok?, if saved.Err? then saved.error else Message(""));
      match saved {
        case Ok(_) => importedIds := importedIds + [id];
        case Err(e) => failed := failed + [ImportFailure(id, e)];
      }
      MoveOne(done, rest, p.servers.Keys, id);
      done := done + {id};
      rest := rest - {id};
    }
  }

  /** A change of MCP files after a change of MCP files is still a change of MCP files only. */
  lemma StillMcpOnly(f: Files, g: Files, h: Files, apps: set<AppType>)
    requires Touched(f, g, McpService.AllApps) && Touched(g, h, apps)
    ensures Touched(f, h, McpService.AllApps)
  {
    TouchedThen(f, g, h, McpService.AllApps, apps);
    EveryApp(McpService.AllApps + apps);
    TouchedMore(f, h, McpService.AllApps + apps, McpService.AllApps);
  }

  /** Moving one id from the ids still to do to the ids done keeps them a partition of the batch. */
  lemma MoveOne(done: set<string>, rest: set<string>, all: set<string>, id: string)
    requires done + rest == all && done !! rest && id in rest
    ensures (done + {id}) + (rest - {id}) == all && (done + {id}) !! (rest - {id})
  {
  }

  /** The checks of `import_mcp_from_deeplink` before the batch, in the source's order. */
  method Prepare(q: ImportRequest, decode: Decoder, utf8: Utf8Decoder, readJson: JsonReader) returns (r: Result<Payload>)
    ensures r == ImportPayload(q, decode, utf8, readJson)
  {
    if q.resource != "mcp" {
      return Err(InvalidInput("Expected mcp resource, got '" + q.resource + "'"));
    }
    if q.apps.None? {
      return Err(InvalidInput("Missing 'apps' parameter for MCP"));
    }
    var target := ParseMcpApps(q.apps.value);
    if target.Err? {
      return Err(target.error);
    }
    if q.config.None? {
      return Err(InvalidInput("Missing 'config' parameter for MCP"));
    }
    var decoded := DecodeBase64Param("config", q.config.value, decode);
    if decoded.Err? {
      return Err(decoded.error);
    }
    var text := utf8(decoded.value);
    if text.Unreadable? {
      return Err(InvalidInput("Invalid UTF-8 in config: " + text.reason));
    }
    var json := readJson(text.value);
    if json.Unreadable? {
      return Err(InvalidInput("Invalid JSON in MCP config: " + json.reason));
    }
    var servers := Get(json.value, "mcpServers");
    if servers.None? || !servers.value.JObj? {
      return Err(InvalidInput("MCP config must contain 'mcpServers' object"));
    }
    if servers.value.fields == map[] {
      return Err(InvalidInput("No MCP servers found in config"));
    }
    r := Ok(Payload(target.value, servers.value.fields));
  }
}
