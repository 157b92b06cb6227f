/**
 * The value converters of mcp/codex.rs: a server's JSON spec to the TOML table
 * written under `[mcp_servers.<id>]` (`json_server_to_toml_table`, built on
 * `json_value_to_toml_item`), and a TOML entry back to a JSON spec (the body of
 * the import closure in `import_from_codex`). Both are lossy on purpose: shapes
 * TOML or the other side cannot hold are dropped, never reported.
 */
module CodexConvert {
  import opened Wrappers
  import opened Values
  import opened Text

  /** A float is finite unless all eleven exponent bits are set. */
  predicate IsFinite(f: Float)
  {
    (f.bits >> 52) & 0x7FF != 0x7FF
  }

  /** `json!(f)`: serde_json has no NaN or infinity and turns them into null. */
  function FloatToJson(f: Float): (r: Json)
    ensures r.JNull? <==> !IsFinite(f)
    ensures r.JFloat? ==> r.f == f
  {
    if IsFinite(f) then JFloat(f) else JNull
  }

  // ---------------------------------------------------------------------------
  // JSON to TOML
  // ---------------------------------------------------------------------------

  /**
   * One array item `json_value_to_toml_item` accepts: a string, a number that
   * is an `i64` or a float, or a boolean. A `u64` beyond the `i64` range, null,
   * an array or an object stops the conversion of the whole array.
   */
  function ItemToToml(v: Json): (r: Option<Toml>)
    ensures r.Some? <==> v.JStr? || (v.JInt? && IsI64(v.i)) || v.JFloat? || v.JBool?
  {
    match v
    case JStr(s) => Some(TStr(s))
    case JInt(i) => if IsI64(i) then Some(TInt(i)) else None
    case JFloat(f) => Some(TFloat(f))
    case JBool(b) => Some(TBool(b))
    case _ => None
  }

  predicate AllItemsConvert(items: seq<Json>)
  {
    forall i :: 0 <= i < |items| ==> ItemToToml(items[i]).Some?
  }

  function ConvertItems(items: seq<Json>): (r: seq<Toml>)
    requires AllItemsConvert(items)
    ensures |r| == |items| && forall i :: 0 <= i < |items| ==> r[i] == ItemToToml(items[i]).value
  {
    seq(|items|, i requires 0 <= i < |items| => ItemToToml(items[i]).value)
  }

  predicate AllStrings(fields: map<string, Json>)
  {
    forall k :: k in fields ==> fields[k].JStr?
  }

  /**
   * `json_value_to_toml_item`. A number outside the `i64` range becomes the
   * float `toFloat` gives it (`as_f64`, not modelled). Null, an empty array, an
   * array with an item `ItemToToml` refuses, an empty object and an object with
   * a value that is not a string have no TOML form.
   */
  function JsonToToml(v: Json, toFloat: int -> Float): (r: Option<Toml>)
    ensures r.None? <==> v.JNull? || (v.JArr? && (v.items == [] || !AllItemsConvert(v.items))) ||
                         (v.JObj? && (v.fields == map[] || !AllStrings(v.fields)))
  {
    match v
    case JNull => None
    case JBool(b) => Some(TBool(b))
    case JInt(i) => Some(if IsI64(i) then TInt(i) else TFloat(toFloat(i)))
    case JFloat(f) => Some(TFloat(f))
    case JStr(s) => Some(TStr(s))
    case JArr(items) => if items != [] && AllItemsConvert(items) then Some(TArray(ConvertItems(items))) else None
    case JObj(fields) =>
      if fields != map[] && AllStrings(fields) then Some(TTable(map k | k in fields :: TStr(fields[k].s))) else None
  }

  /** `json_value_to_toml_item`, with the array and object loops of the source. */
  method JsonValueToTomlItem(v: Json, toFloat: int -> Float) returns (r: Option<Toml>)
    ensures r == JsonToToml(v, toFloat)
  {
    match v {
      case JArr(items) =>
        var arr: seq<Toml> := [];
        var allSameType := true;
        var i := 0;
        while i < |items|
          invariant 0 <= i <= |items|
          invariant allSameType ==> |arr| == i && forall j :: 0 <= j < i ==> ItemToToml(items[j]).Some? && arr[j] == ItemToToml(items[j]).value
          invariant !allSameType ==> !AllItemsConvert(items)
        {
          var item := ItemToToml(items[i]);
          if item.None? {
            allSameType := false;
            break;
          }
          arr := arr + [item.value];
          i := i + 1;
        }
        if allSameType && arr != [] {
          assert i == |items|;
          assert arr == ConvertItems(items);
          r := Some(TArray(arr));
        } else {
          if allSameType {
            assert items == [];
          }
          r := None;
        }
      case JObj(fields) =>
        var table: map<string, Toml> := map[];
        var allStrings := true;
        var rest := fields.Keys;
        while rest != {}
          invariant rest <= fields.Keys
          invariant allStrings ==> table.Keys == fields.Keys - rest
          invariant allStrings ==> forall k :: k in table ==> fields[k].JStr? && table[k] == TStr(fields[k].s)
          invariant !allStrings ==> !AllStrings(fields)
          decreases rest
        {
          var k :| k in rest;
          if !fields[k].JStr? {
            allStrings := false;
            break;
          }
          table := table[k := TStr(fields[k].s)];
          rest := rest - {k};
        }
        if allStrings && table != map[] {
          assert table.Keys == fields.Keys;
          assert table == map k | k in fields :: TStr(fields[k].s);
          r := Some(TTable(table));
        } else {
          if allStrings {
            assert fields.Keys == {};
            assert fields == map[];
          }
          r := None;
        }
      case _ =>
        r := JsonToToml(v, toFloat);
    }
  }

  /** The string items of a JSON array (`filter_map(as_str)`), in order. */
  function JsonStrings(items: seq<Json>): (r: seq<string>)
    ensures |r| <= |items|
  {
    if items == [] then []
    else (if items[0].JStr? then [items[0].s] else []) + JsonStrings(items[1..])
  }

  /** The fields `json_server_to_toml_table` and the import handle themselves for a server type. */
  function CoreFields(typ: string): set<string>
  {
    if typ == "stdio" then {"type", "command", "args", "env", "cwd"}
    else if typ == "http" || typ == "sse" then {"type", "url", "http_headers"}
    else {"type"}
  }

  /** The server type of a spec; a missing or non-string `type` means `stdio`. */
  function SpecType(spec: Json): string
  {
    GetStr(spec, "type").UnwrapOr("stdio")
  }

  /** The string entries of a JSON object field, when the field is an object. */
  function JsonStringField(spec: Json, key: string): map<string, string>
  {
    match Get(spec, key)
    case Some(JObj(fields)) => StringEntries(fields, JsonAsStr)
    case _ => map[]
  }

  /**
   * The strongly typed part of `json_server_to_toml_table`. For stdio: `type`,
   * `command` (empty when missing), the string `args` when there are any, a
   * non-blank `cwd`, the string entries of `env` when there are any. For http
   * and sse: `type`, `url` (empty when missing) and the string entries of the
   * JSON `headers` as the `http_headers` table. Otherwise `type` alone.
   */
  function ExportCore(spec: Json): (t: map<string, Toml>)
    ensures "type" in t && t["type"] == TStr(SpecType(spec))
    ensures t.Keys <= CoreFields(SpecType(spec))
  {
    var typ := SpecType(spec);
    if typ == "stdio" then ExportStdioCore(spec)
    else if typ == "http" || typ == "sse" then ExportHttpCore(spec, typ)
    else map["type" := TStr(typ)]
  }

  /** The typed fields of a stdio server. */
  function ExportStdioCore(spec: Json): (t: map<string, Toml>)
    ensures "type" in t && t["type"] == TStr("stdio")
    ensures t.Keys <= CoreFields("stdio")
  {
    var t1 := map["type" := TStr("stdio"), "command" := TStr(GetStr(spec, "command").UnwrapOr(""))];
    var args := match Get(spec, "args") case Some(JArr(items)) => JsonStrings(items) case _ => [];
    var t2 := if args != [] then t1["args" := TArray(seq(|args|, i requires 0 <= i < |args| => TStr(args[i])))] else t1;
    var cwd := GetStr(spec, "cwd");
    var t3 := if cwd.Some? && !IsBlank(cwd.value) then t2["cwd" := TStr(cwd.value)] else t2;
    var env := JsonStringField(spec, "env");
    if env != map[] then t3["env" := StrMapToToml(env)] else t3
  }

  /** The typed fields of an http or sse server. */
  function ExportHttpCore(spec: Json, typ: string): (t: map<string, Toml>)
    requires typ == "http" || typ == "sse"
    ensures "type" in t && t["type"] == TStr(typ)
    ensures t.Keys <= CoreFields(typ)
  {
    var t1 := map["type" := TStr(typ), "url" := TStr(GetStr(spec, "url").UnwrapOr(""))];
    var headers := JsonStringField(spec, "headers");
    if headers != map[] then t1["http_headers" := StrMapToToml(headers)] else t1
  }

  /** The generic part of `json_server_to_toml_table`: every other field that has a TOML form. */
  function ExportExtra(spec: Json, toFloat: int -> Float): (t: map<string, Toml>)
    ensures forall k :: k in t <==> spec.JObj? && k in spec.fields && k !in CoreFields(SpecType(spec)) &&
                                    JsonToToml(spec.fields[k], toFloat).Some?
    ensures forall k :: k in t ==> t[k] == JsonToToml(spec.fields[k], toFloat).value
  {
    if !spec.JObj? then map[]
    else
      map k | k in spec.fields && k !in CoreFields(SpecType(spec)) && JsonToToml(spec.fields[k], toFloat).Some? ::
        JsonToToml(spec.fields[k], toFloat).value
  }

  /** The table `json_server_to_toml_table` builds; it never fails. */
  function ServerTable(spec: Json, toFloat: int -> Float): map<string, Toml>
  {
    ExportCore(spec) + ExportExtra(spec, toFloat)
  }

  /** `json_server_to_toml_table`: the typed fields, then the loop over the remaining fields. */
  method JsonServerToTomlTable(spec: Json, toFloat: int -> Float) returns (t: map<string, Toml>)
    ensures t == ServerTable(spec, toFloat)
  {
    t := ExportCore(spec);
    if spec.JObj? {
      var core := CoreFields(SpecType(spec));
      var rest := spec.fields.Keys;
      while rest != {}
        invariant rest <= spec.fields.Keys
        invariant forall k :: k in t <==> (k in ExportCore(spec) ||
          (k in spec.fields && k !in rest && k !in core && JsonToToml(spec.fields[k], toFloat).Some?))
        invariant forall k :: k in t ==> t[k] == if k in ExportExtra(spec, toFloat) && k !in rest then ExportExtra(spec, toFloat)[k] else ExportCore(spec)[k]
        decreases rest
      {
        var key :| key in rest;
        rest := rest - {key};
        if key in core {
          continue;
        }
        var item := JsonValueToTomlItem(spec.fields[key], toFloat);
        if item.Some? {
          t := t[key := item.value];
        }
      }
    }
    assert t.Keys == ServerTable(spec, toFloat).Keys;
  }

  /** For http and sse, the string entries of a JSON `headers` object become the `http_headers` table. */
  lemma ExportHttpHeaders(spec: Json)
    requires SpecType(spec) in {"http", "sse"}
    requires JsonStringField(spec, "headers") != map[]
    ensures "http_headers" in ExportCore(spec)
    ensures ExportCore(spec)["http_headers"] == StrMapToToml(JsonStringField(spec, "headers"))
  {
  }

  /**
   * For http and sse, a JSON `headers` object of strings is written twice: as
   * the `http_headers` table, and, since `headers` is not a core field, as an
   * inline `headers` table by the generic converter.
   */
  lemma ExportHeadersTwice(spec: Json, toFloat: int -> Float)
    requires spec.JObj? && SpecType(spec) in {"http", "sse"}
    requires "headers" in spec.fields && spec.fields["headers"].JObj?
    requires spec.fields["headers"].fields != map[] && AllStrings(spec.fields["headers"].fields)
    ensures var t := ServerTable(spec, toFloat);
      var h := StringEntries(spec.fields["headers"].fields, JsonAsStr);
      "http_headers" in t && t["http_headers"] == StrMapToToml(h) &&
      "headers" in t && t["headers"] == StrMapToToml(h)
  {
    var fields := spec.fields["headers"].fields;
    var h := StringEntries(fields, JsonAsStr);
    assert h.Keys == fields.Keys;
    assert JsonStringField(spec, "headers") == h;
    ExportHttpHeaders(spec);
    ExportExtraHeaders(spec, toFloat);
  }

  /** For http and sse, the generic pass writes a JSON `headers` object of strings as an inline table. */
  lemma ExportExtraHeaders(spec: Json, toFloat: int -> Float)
    requires spec.JObj? && SpecType(spec) in {"http", "sse"}
    requires "headers" in spec.fields && spec.fields["headers"].JObj?
    requires spec.fields["headers"].fields != map[] && AllStrings(spec.fields["headers"].fields)
    ensures "http_headers" !in ExportExtra(spec, toFloat)
    ensures "headers" in ExportExtra(spec, toFloat)
    ensures ExportExtra(spec, toFloat)["headers"] == StrMapToToml(StringEntries(spec.fields["headers"].fields, JsonAsStr))
  {
    ObjectToToml(spec.fields["headers"].fields, toFloat);
  }

  /** A non-empty object of strings becomes the table of those strings. */
  lemma ObjectToToml(fields: map<string, Json>, toFloat: int -> Float)
    requires fields != map[] && AllStrings(fields)
    ensures JsonToToml(JObj(fields), toFloat) == Some(StrMapToToml(StringEntries(fields, JsonAsStr)))
  {
    var h := StringEntries(fields, JsonAsStr);
    var a := map k | k in fields :: TStr(fields[k].s);
    assert h.Keys == fields.Keys;
    assert a == StrMapToToml(h).entries;
  }

  // ---------------------------------------------------------------------------
  // TOML to JSON
  // ---------------------------------------------------------------------------

  /** An array item the import keeps: a string, an integer, a float or a boolean. */
  function TomlItemToJson(t: Toml): (r: Option<Json>)
    ensures r.Some? <==> t.TStr? || t.TInt? || t.TFloat? || t.TBool?
  {
    match t
    case TStr(s) => Some(JStr(s))
    case TInt(i) => Some(JInt(i))
    case TFloat(f) => Some(FloatToJson(f))
    case TBool(b) => Some(JBool(b))
    case _ => None
  }

  /** The items the import keeps (`filter_map`), converted, in order. */
  function TomlItems(items: seq<Toml>): (r: seq<Json>)
    ensures |r| <= |items|
  {
    if items == [] then []
    else (if TomlItemToJson(items[0]).Some? then [TomlItemToJson(items[0]).value] else []) + TomlItems(items[1..])
  }

  /** The string items of a TOML array, in order. */
  function TomlStrings(items: seq<Toml>): (r: seq<string>)
    ensures |r| <= |items|
  {
    if items == [] then []
    else (if items[0].TStr? then [items[0].s] else []) + TomlStrings(items[1..])
  }

  /**
   * The generic TOML to JSON conversion of the import: scalars pass through
   * (a non-finite float becomes null); an array keeps its scalar items and is
   * dropped when none remain; a table keeps its string values and is dropped
   * when none remain; a datetime is dropped.
   */
  function TomlToJson(t: Toml): (r: Option<Json>)
    ensures t.TDatetime? ==> r.None?
    ensures t.TArray? ==> (r.Some? <==> TomlItems(t.items) != [])
    ensures t.TTable? ==> (r.Some? <==> StringEntries(t.entries, TomlAsStr) != map[])
  {
    match t
    case TStr(s) => Some(JStr(s))
    case TInt(i) => Some(JInt(i))
    case TFloat(f) => Some(FloatToJson(f))
    case TBool(b) => Some(JBool(b))
    case TDatetime(_) => None
    case TArray(items) => if TomlItems(items) != [] then Some(JArr(TomlItems(items))) else None
    case TTable(entries) =>
      var strs := StringEntries(entries, TomlAsStr);
      if strs != map[] then Some(StrMapToJson(strs)) else None
  }

  /** Whether an import of a value of this shape gives it back: no number outside `i64`, no non-finite float. */
  predicate ExactNumber(v: Json)
  {
    (v.JInt? ==> IsI64(v.i)) && (v.JFloat? ==> IsFinite(v.f))
  }

  lemma {:induction false} ItemsRoundTrip(items: seq<Json>)
    requires AllItemsConvert(items)
    requires forall i :: 0 <= i < |items| ==> ExactNumber(items[i])
    ensures TomlItems(ConvertItems(items)) == items
    decreases |items|
  {
    if items != [] {
      ItemsRoundTrip(items[1..]);
      assert ConvertItems(items)[1..] == ConvertItems(items[1..]);
    }
  }

  /**
   * The two generic converters are inverse on what the export accepts, as
   * long as numbers are exact: a value written by `json_value_to_toml_item`
   * is read back by the import as the same value.
   */
  lemma ValueRoundTrip(v: Json, toFloat: int -> Float)
    requires JsonToToml(v, toFloat).Some? && ExactNumber(v)
    requires v.JArr? ==> forall i :: 0 <= i < |v.items| ==> ExactNumber(v.items[i])
    ensures TomlToJson(JsonToToml(v, toFloat).value) == Some(v)
  {
    match v {
      case JArr(items) =>
        ItemsRoundTrip(items);
      case JObj(fields) =>
        var t := map k | k in fields :: TStr(fields[k].s);
        var strs := StringEntries(t, TomlAsStr);
        assert strs.Keys == fields.Keys;
        assert StrMapToJson(strs).fields == fields;
      case _ =>
    }
  }

  // ---------------------------------------------------------------------------
  // Import of one `[mcp_servers.<id>]` entry
  // ---------------------------------------------------------------------------

  /** The server type of a TOML entry; a missing or non-string `type` means `stdio`. */
  function EntryType(entry: map<string, Toml>): string
  {
    if "type" in entry && entry["type"].TStr? then entry["type"].s else "stdio"
  }

  predicate KnownType(typ: string)
  {
    typ == "stdio" || typ == "http" || typ == "sse"
  }

  /** The string entries of a TOML table field, when the field is a table. */
  function TomlStringField(entry: map<string, Toml>, key: string): map<string, string>
  {
    if key in entry && entry[key].TTable? then StringEntries(entry[key].entries, TomlAsStr) else map[]
  }

  /** The headers table of an http or sse entry: `http_headers` when it is a table, else the legacy `headers`. */
  function HeadersTable(entry: map<string, Toml>): map<string, string>
  {
    if "http_headers" in entry && entry["http_headers"].TTable? then TomlStringField(entry, "http_headers")
    else TomlStringField(entry, "headers")
  }

  /**
   * The strongly typed part of the import. For stdio: `type`, a string
   * `command`, the string `args` when there are any, a non-blank `cwd`, the
   * string entries of `env` when there are any. For http and sse: `type`, a
   * string `url` and the string entries of the headers table as `headers`.
   */
  function ImportCore(entry: map<string, Toml>): (spec: map<string, Json>)
    requires KnownType(EntryType(entry))
    ensures "type" in spec && spec["type"] == JStr(EntryType(entry))
  {
    if EntryType(entry) == "stdio" then ImportStdioCore(entry) else ImportHttpCore(entry, EntryType(entry))
  }

  /** The typed fields of a stdio entry. */
  /** `m` with `key` bound to the value in `o`, or `m` unchanged when `o` is empty. */
  function Put(m: map<string, Json>, key: string, o: Option<Json>): (r: map<string, Json>)
    ensures forall k :: k in r <==> k in m || (k == key && o.Some?)
    ensures forall k :: k in r ==> r[k] == (if k == key && o.Some? then o.value else m[k])
  {
    if o.Some? then m[key := o.value] else m
  }

  /** An object is rebuilt by putting its fields one by one, starting from `t`. */
  lemma PutAll(f: map<string, Json>, t: string, a: string, b: string, c: string, d: string)
    requires f.Keys <= {t, a, b, c, d} && t in f
    requires t != a && t != b && t != c && t != d
    ensures Put(Put(Put(Put(map[t := f[t]], a, FieldOf(f, a)), b, FieldOf(f, b)), c, FieldOf(f, c)), d, FieldOf(f, d)) == f
  {
    var r := Put(Put(Put(Put(map[t := f[t]], a, FieldOf(f, a)), b, FieldOf(f, b)), c, FieldOf(f, c)), d, FieldOf(f, d));
    assert forall k :: k in r <==> k in f;
    assert forall k :: k in r ==> r[k] == f[k];
  }

  /** The field `key` of a JSON object as an option. */
  function FieldOf(fields: map<string, Json>, key: string): Option<Json>
  {
    if key in fields then Some(fields[key]) else None
  }

  /** A stdio entry's `command`, when it is a string. */
  function StdioCommand(entry: map<string, Toml>): Option<Json>
  {
    if "command" in entry && entry["command"].TStr? then Some(JStr(entry["command"].s)) else None
  }

  /** A stdio entry's string `args`, when there is at least one. */
  function StdioArgs(entry: map<string, Toml>): Option<Json>
  {
    var args := if "args" in entry && entry["args"].TArray? then TomlStrings(entry["args"].items) else [];
    if args != [] then Some(JArr(seq(|args|, i requires 0 <= i < |args| => JStr(args[i])))) else None
  }

  /** A stdio entry's `cwd`, when it is a non-blank string. */
  function StdioCwd(entry: map<string, Toml>): Option<Json>
  {
    if "cwd" in entry && entry["cwd"].TStr? && !IsBlank(entry["cwd"].s) then Some(JStr(entry["cwd"].s)) else None
  }

  /** A stdio entry's string `env` entries, when there is at least one. */
  function StdioEnv(entry: map<string, Toml>): Option<Json>
  {
    var env := TomlStringField(entry, "env");
    if env != map[] then Some(StrMapToJson(env)) else None
  }

  /** The typed fields of a stdio entry. */
  function ImportStdioCore(entry: map<string, Toml>): (spec: map<string, Json>)
    ensures "type" in spec && spec["type"] == JStr("stdio")
  {
    var s1 := Put(map["type" := JStr("stdio")], "command", StdioCommand(entry));
    Put(Put(Put(s1, "args", StdioArgs(entry)), "cwd", StdioCwd(entry)), "env", StdioEnv(entry))
  }

  /** The typed fields of an http or sse entry. */
  function ImportHttpCore(entry: map<string, Toml>, typ: string): (spec: map<string, Json>)
    ensures "type" in spec && spec["type"] == JStr(typ)
  {
    var base := map["type" := JStr(typ)];
    var s1 := if "url" in entry && entry["url"].TStr? then base["url" := JStr(entry["url"].s)] else base;
    var headers := HeadersTable(entry);
    if headers != map[] then s1["headers" := StrMapToJson(headers)] else s1
  }

  /** The generic part of the import: every field outside `core` that has a JSON form. */
  function ImportExtra(entry: map<string, Toml>, core: set<string>): (spec: map<string, Json>)
    ensures forall k :: k in spec <==> k in entry && k !in core && TomlToJson(entry[k]).Some?
    ensures forall k :: k in spec ==> spec[k] == TomlToJson(entry[k]).value
  {
    map k | k in entry && k !in core && TomlToJson(entry[k]).Some? :: TomlToJson(entry[k]).value
  }

  /**
   * The spec the import builds, as written: unknown types give None (the
   * source then stops, see `McpCodex`); the generic pass runs over every field
   * outside `CoreFields`, so for http and sse a legacy `headers` table is
   * converted again and replaces the `headers` built from `http_headers`.
   */
  function EntrySpecAsWritten(entry: map<string, Toml>): Option<Json>
  {
    var typ := EntryType(entry);
    if !KnownType(typ) then None else Some(JObj(ImportCore(entry) + ImportExtra(entry, CoreFields(typ))))
  }

  /** The fields the import handles itself once `headers` counts as a core field of http and sse. */
  function ImportCoreFields(typ: string): set<string>
  {
    if typ == "http" || typ == "sse" then CoreFields(typ) + {"headers"} else CoreFields(typ)
  }

  /** The spec the import builds, with `headers` treated as a core field of http and sse. */
  function EntrySpec(entry: map<string, Toml>): (r: Option<Json>)
    ensures r.Some? <==> KnownType(EntryType(entry))
    ensures r.Some? ==> r.value.JObj? && "type" in r.value.fields && r.value.fields["type"] == JStr(EntryType(entry))
  {
    var typ := EntryType(entry);
    if !KnownType(typ) then None else Some(JObj(ImportCore(entry) + ImportExtra(entry, ImportCoreFields(typ))))
  }

  /**
   * `http_headers` takes priority over the legacy `headers` table, and only
   * string values are kept.
   */
  lemma HttpHeadersPriority(entry: map<string, Toml>)
    requires EntryType(entry) in {"http", "sse"}
    requires "http_headers" in entry && entry["http_headers"].TTable?
    requires StringEntries(entry["http_headers"].entries, TomlAsStr) != map[]
    ensures EntrySpec(entry).Some?
    ensures "headers" in EntrySpec(entry).value.fields
    ensures EntrySpec(entry).value.fields["headers"] == StrMapToJson(StringEntries(entry["http_headers"].entries, TomlAsStr))
  {
    assert "headers" in ImportCoreFields(EntryType(entry));
    assert "headers" !in ImportExtra(entry, ImportCoreFields(EntryType(entry)));
  }

  /**
   * As written, a legacy `headers` table with string values decides the
   * imported `headers` of an http or sse entry, whatever `http_headers` says.
   */
  lemma AsWrittenLegacyHeadersWin(entry: map<string, Toml>)
    requires EntryType(entry) in {"http", "sse"}
    requires "headers" in entry && entry["headers"].TTable?
    requires StringEntries(entry["headers"].entries, TomlAsStr) != map[]
    ensures EntrySpecAsWritten(entry).Some?
    ensures "headers" in EntrySpecAsWritten(entry).value.fields
    ensures EntrySpecAsWritten(entry).value.fields["headers"] == StrMapToJson(StringEntries(entry["headers"].entries, TomlAsStr))
  {
    assert "headers" in ImportExtra(entry, CoreFields(EntryType(entry)));
  }

  /**
   * The entry `{ type = "http", url = "u", http_headers = { A = "1" }, headers = { B = "2" } }`
   * imports, as written, with header B only, where `http_headers` should have
   * given header A.
   */
  /** The header names of an imported spec; empty when there is no spec or no headers object. */
  function HeaderNames(o: Option<Json>): set<string>
  {
    if o.Some? && o.value.JObj? && "headers" in o.value.fields && o.value.fields["headers"].JObj?
    then o.value.fields["headers"].fields.Keys else {}
  }

  lemma LegacyHeadersOverride()
    ensures var entry := map["type" := TStr("http"), "url" := TStr("u"),
                             "http_headers" := TTable(map["A" := TStr("1")]),
                             "headers" := TTable(map["B" := TStr("2")])];
      HeaderNames(EntrySpecAsWritten(entry)) == {"B"} && HeaderNames(EntrySpec(entry)) == {"A"}
  {
    var entry := map["type" := TStr("http"), "url" := TStr("u"),
                     "http_headers" := TTable(map["A" := TStr("1")]),
                     "headers" := TTable(map["B" := TStr("2")])];
    assert EntryType(entry) == "http";
    var a := StringEntries(map["A" := TStr("1")], TomlAsStr);
    assert a.Keys == {"A"} by {
      assert TomlAsStr(TStr("1")).Some?;
    }
    var b := StringEntries(map["B" := TStr("2")], TomlAsStr);
    assert b.Keys == {"B"} by {
      assert TomlAsStr(TStr("2")).Some?;
    }
    assert HeaderNames(EntrySpecAsWritten(entry)) == {"B"} by {
      AsWrittenLegacyHeadersWin(entry);
    }
    assert HeaderNames(EntrySpec(entry)) == {"A"} by {
      HttpHeadersPriority(entry);
    }
  }

  /** The loop of the import closure over an entry's fields that are not core fields. */
  method ConvertExtraFields(entry: map<string, Toml>, core: set<string>) returns (extra: map<string, Json>)
    ensures extra == ImportExtra(entry, core)
  {
    extra := map[];
    var rest := entry.Keys;
    while rest != {}
      invariant rest <= entry.Keys
      invariant forall k :: k in extra <==> k in entry && k !in rest && k !in core && TomlToJson(entry[k]).Some?
      invariant forall k :: k in extra ==> extra[k] == TomlToJson(entry[k]).value
      decreases rest
    {
      var key :| key in rest;
      rest := rest - {key};
      if key in core {
        continue;
      }
      var value := TomlToJson(entry[key]);
      if value.Some? {
        extra := extra[key := value.value];
      }
    }
  }

  /** `import_servers_tbl` body for one entry: the typed fields, then the generic ones on top. */
  method ImportEntry(entry: map<string, Toml>) returns (r: Option<Json>)
    ensures r == EntrySpec(entry)
  {
    var typ := EntryType(entry);
    if !KnownType(typ) {
      return None;
    }
    var extra := ConvertExtraFields(entry, ImportCoreFields(typ));
    r := Some(JObj(ImportCore(entry) + extra));
  }

  // ---------------------------------------------------------------------------
  // Export, then import
  // ---------------------------------------------------------------------------

  lemma {:induction false} JsonStringsAll(items: seq<Json>)
    requires forall i :: 0 <= i < |items| ==> items[i].JStr?
    ensures |JsonStrings(items)| == |items|
    ensures forall i :: 0 <= i < |items| ==> JsonStrings(items)[i] == items[i].s
    decreases |items|
  {
    if items != [] {
      JsonStringsAll(items[1..]);
    }
  }

  lemma {:induction false} TomlStringsOfStrings(ss: seq<string>)
    ensures TomlStrings(seq(|ss|, i requires 0 <= i < |ss| => TStr(ss[i]))) == ss
    decreases |ss|
  {
    if ss != [] {
      var t := seq(|ss|, i requires 0 <= i < |ss| => TStr(ss[i]));
      TomlStringsOfStrings(ss[1..]);
      assert t[1..] == seq(|ss[1..]|, i requires 0 <= i < |ss[1..]| => TStr(ss[1..][i]));
      assert ss == [ss[0]] + ss[1..];
    }
  }

  /** A table of strings read back keeps every entry. */
  lemma StringTableRoundTrip(m: map<string, string>)
    ensures StringEntries(StrMapToToml(m).entries, TomlAsStr) == m
  {
    assert StringEntries(StrMapToToml(m).entries, TomlAsStr).Keys == m.Keys;
  }

  /** An object of strings, taken apart and rebuilt, is itself. */
  lemma StringObjectRoundTrip(fields: map<string, Json>)
    requires AllStrings(fields)
    ensures StrMapToJson(StringEntries(fields, JsonAsStr)) == JObj(fields)
  {
    assert StringEntries(fields, JsonAsStr).Keys == fields.Keys;
    assert StrMapToJson(StringEntries(fields, JsonAsStr)).fields == fields;
  }

  /**
   * A stdio spec in the shape the import produces: a string `command`,
   * optionally non-empty string `args`, a non-blank `cwd` and a non-empty
   * string `env`, and nothing else.
   */
  predicate CanonicalStdio(spec: Json)
  {
    spec.JObj? && spec.fields.Keys <= {"type", "command", "args", "cwd", "env"} &&
    "type" in spec.fields && spec.fields["type"] == JStr("stdio") &&
    "command" in spec.fields && spec.fields["command"].JStr? &&
    ("args" in spec.fields ==>
       (spec.fields["args"].JArr? && spec.fields["args"].items != [] &&
        forall i :: 0 <= i < |spec.fields["args"].items| ==> spec.fields["args"].items[i].JStr?)) &&
    ("cwd" in spec.fields ==> spec.fields["cwd"].JStr? && !IsBlank(spec.fields["cwd"].s)) &&
    ("env" in spec.fields ==> spec.fields["env"].JObj? && spec.fields["env"].fields != map[] && AllStrings(spec.fields["env"].fields))
  }

  /** The stdio table written for a canonical spec: one entry per field. */
  lemma ExportStdio(spec: Json)
    requires CanonicalStdio(spec)
    ensures ExportStdioCore(spec).Keys == spec.fields.Keys
    ensures ExportStdioCore(spec)["type"] == TStr("stdio")
    ensures ExportStdioCore(spec)["command"] == TStr(spec.fields["command"].s)
    ensures "args" in spec.fields ==>
              (ExportStdioCore(spec)["args"].TArray? &&
               TomlStrings(ExportStdioCore(spec)["args"].items) == JsonStrings(spec.fields["args"].items))
    ensures "cwd" in spec.fields ==> ExportStdioCore(spec)["cwd"] == TStr(spec.fields["cwd"].s)
    ensures "env" in spec.fields ==> ExportStdioCore(spec)["env"] == StrMapToToml(StringEntries(spec.fields["env"].fields, JsonAsStr))
  {
    var f := spec.fields;
    StdioFieldsPresent(spec);
    ExportStdioKeys(spec);
    if "args" in f {
      JsonStringsAll(f["args"].items);
      TomlStringsOfStrings(JsonStrings(f["args"].items));
    }
  }

  /** The stdio table of a canonical spec has exactly the spec's fields. */
  lemma ExportStdioKeys(spec: Json)
    requires CanonicalStdio(spec)
    ensures ExportStdioCore(spec).Keys == spec.fields.Keys
  {
    StdioFieldsPresent(spec);
  }

  /** For a canonical stdio spec, each optional field is written exactly when it is present. */
  lemma StdioFieldsPresent(spec: Json)
    requires CanonicalStdio(spec)
    ensures var args := match Get(spec, "args") case Some(JArr(items)) => JsonStrings(items) case _ => [];
      args != [] <==> "args" in spec.fields
    ensures GetStr(spec, "cwd").Some? && !IsBlank(GetStr(spec, "cwd").value) <==> "cwd" in spec.fields
    ensures JsonStringField(spec, "env") != map[] <==> "env" in spec.fields
  {
    var f := spec.fields;
    if "args" in f {
      JsonStringsAll(f["args"].items);
    }
    if "env" in f {
      var k :| k in f["env"].fields;
      assert k in StringEntries(f["env"].fields, JsonAsStr);
    }
  }

  /** Importing the stdio table of a canonical spec gives back its fields. */
  lemma ImportStdio(spec: Json, entry: map<string, Toml>)
    requires CanonicalStdio(spec)
    requires entry.Keys == spec.fields.Keys
    requires entry["type"] == TStr("stdio")
    requires entry["command"] == TStr(spec.fields["command"].s)
    requires "args" in spec.fields ==>
               (entry["args"].TArray? && TomlStrings(entry["args"].items) == JsonStrings(spec.fields["args"].items))
    requires "cwd" in spec.fields ==> entry["cwd"] == TStr(spec.fields["cwd"].s)
    requires "env" in spec.fields ==> entry["env"] == StrMapToToml(StringEntries(spec.fields["env"].fields, JsonAsStr))
    ensures EntryType(entry) == "stdio"
    ensures ImportStdioCore(entry) == spec.fields
  {
    var f := spec.fields;
    assert StdioCommand(entry) == FieldOf(f, "command");
    if "args" in f {
      var items := f["args"].items;
      JsonStringsAll(items);
      var ss := JsonStrings(items);
      assert seq(|ss|, i requires 0 <= i < |ss| => JStr(ss[i])) == items;
    }
    assert StdioArgs(entry) == FieldOf(f, "args");
    assert StdioCwd(entry) == FieldOf(f, "cwd");
    if "env" in f {
      var env := f["env"].fields;
      StringTableRoundTrip(StringEntries(env, JsonAsStr));
      StringObjectRoundTrip(env);
    }
    assert StdioEnv(entry) == FieldOf(f, "env");
    PutAll(f, "type", "command", "args", "cwd", "env");
  }


  /** A canonical stdio spec survives being written to `config.toml` and imported back. */
  lemma StdioRoundTrip(spec: Json, toFloat: int -> Float)
    requires CanonicalStdio(spec)
    ensures EntrySpec(ServerTable(spec, toFloat)) == Some(spec)
  {
    assert ExportExtra(spec, toFloat) == map[];
    var entry := ServerTable(spec, toFloat);
    assert entry == ExportStdioCore(spec);
    ExportStdio(spec);
    ImportStdio(spec, entry);
    RoundTripGlue(entry, spec);
  }

  /** An entry whose fields are all core fields imports as the spec its core fields give. */
  lemma RoundTripGlue(entry: map<string, Toml>, spec: Json)
    requires KnownType(EntryType(entry)) && spec.JObj?
    requires entry.Keys <= ImportCoreFields(EntryType(entry))
    requires ImportCore(entry) == spec.fields
    ensures EntrySpec(entry) == Some(spec)
  {
    assert ImportExtra(entry, ImportCoreFields(EntryType(entry))) == map[];
    assert ImportCore(entry) + map[] == spec.fields;
  }

  /** An http or sse spec in the shape the import produces: a string `url`, optionally non-empty string `headers`. */
  predicate CanonicalHttp(spec: Json)
  {
    spec.JObj? && spec.fields.Keys <= {"type", "url", "headers"} &&
    "type" in spec.fields && spec.fields["type"] in {JStr("http"), JStr("sse")} &&
    "url" in spec.fields && spec.fields["url"].JStr? &&
    ("headers" in spec.fields ==>
       (spec.fields["headers"].JObj? && spec.fields["headers"].fields != map[] &&
        AllStrings(spec.fields["headers"].fields)))
  }

  /** The http or sse table written for a canonical spec. */
  lemma ExportHttp(spec: Json, toFloat: int -> Float)
    requires CanonicalHttp(spec)
    ensures var t := ServerTable(spec, toFloat);
      t.Keys == {"type", "url"} + (if "headers" in spec.fields then {"http_headers", "headers"} else {}) &&
      t["type"] == TStr(spec.fields["type"].s) && t["url"] == TStr(spec.fields["url"].s) &&
      ("headers" in spec.fields ==>
         var h := StringEntries(spec.fields["headers"].fields, JsonAsStr);
         t["http_headers"] == StrMapToToml(h) && t["headers"] == StrMapToToml(h))
  {
    ExportHttpCoreOf(spec);
    ExportHttpExtraOf(spec, toFloat);
  }

  /** The typed fields written for a canonical http or sse spec: `type`, `url` and, with headers, `http_headers`. */
  lemma ExportHttpCoreOf(spec: Json)
    requires CanonicalHttp(spec)
    ensures var t1 := map["type" := TStr(spec.fields["type"].s), "url" := TStr(spec.fields["url"].s)];
      ExportCore(spec) ==
        if "headers" in spec.fields
        then t1["http_headers" := StrMapToToml(StringEntries(spec.fields["headers"].fields, JsonAsStr))]
        else t1
  {
    var f := spec.fields;
    assert SpecType(spec) == f["type"].s;
    if "headers" in f {
      var h := StringEntries(f["headers"].fields, JsonAsStr);
      assert JsonStringField(spec, "headers") == h;
      assert h != map[] by {
        var k :| k in f["headers"].fields;
        assert k in h;
      }
    } else {
      assert JsonStringField(spec, "headers") == map[];
    }
  }

  /** The generic fields written for a canonical http or sse spec: the headers again, if any. */
  lemma ExportHttpExtraOf(spec: Json, toFloat: int -> Float)
    requires CanonicalHttp(spec)
    ensures ExportExtra(spec, toFloat) ==
      if "headers" in spec.fields
      then map["headers" := StrMapToToml(StringEntries(spec.fields["headers"].fields, JsonAsStr))]
      else map[]
  {
    assert SpecType(spec) == spec.fields["type"].s;
    if "headers" in spec.fields {
      ExportExtraHeaders(spec, toFloat);
    }
  }

  /** Importing the http or sse table of a canonical spec gives back its fields. */
  lemma ImportHttp(spec: Json, entry: map<string, Toml>)
    requires CanonicalHttp(spec)
    requires entry.Keys == {"type", "url"} + (if "headers" in spec.fields then {"http_headers", "headers"} else {})
    requires entry["type"] == TStr(spec.fields["type"].s) && entry["url"] == TStr(spec.fields["url"].s)
    requires "headers" in spec.fields ==>
               (entry["http_headers"] == StrMapToToml(StringEntries(spec.fields["headers"].fields, JsonAsStr)))
    ensures EntryType(entry) == spec.fields["type"].s
    ensures ImportCore(entry) == spec.fields
  {
    var f := spec.fields;
    var typ := f["type"].s;
    assert EntryType(entry) == typ;
    var hs := HeadersTable(entry);
    var s1 := map["type" := JStr(typ), "url" := f["url"]];
    if "headers" in f {
      var h := f["headers"].fields;
      assert hs == StringEntries(h, JsonAsStr) by {
        StringTableRoundTrip(StringEntries(h, JsonAsStr));
      }
      assert StrMapToJson(hs) == f["headers"] by {
        StringObjectRoundTrip(h);
      }
      assert hs != map[] by {
        var k :| k in h;
        assert k in hs;
      }
      assert ImportHttpCore(entry, typ) == s1["headers" := f["headers"]];
      assert f == s1["headers" := f["headers"]];
    } else {
      assert hs == map[];
      assert ImportHttpCore(entry, typ) == s1;
      assert f == s1;
    }
  }

  /**
   * A canonical http or sse spec survives being written and imported back:
   * the headers go out twice and come back once.
   */
  lemma HttpRoundTrip(spec: Json, toFloat: int -> Float)
    requires CanonicalHttp(spec)
    ensures EntrySpec(ServerTable(spec, toFloat)) == Some(spec)
  {
    var entry := ServerTable(spec, toFloat);
    ExportHttp(spec, toFloat);
    ImportHttp(spec, entry);
    RoundTripGlue(entry, spec);
  }

  /** A spec in the shape the import produces. */
  predicate Canonical(spec: Json)
  {
    CanonicalStdio(spec) || CanonicalHttp(spec)
  }

  /** Every canonical spec survives being written to `config.toml` and imported back. */
  lemma ServerRoundTrip(spec: Json, toFloat: int -> Float)
    requires Canonical(spec)
    ensures EntrySpec(ServerTable(spec, toFloat)) == Some(spec)
  {
    if CanonicalStdio(spec) {
      StdioRoundTrip(spec, toFloat);
    } else {
      HttpRoundTrip(spec, toFloat);
    }
  }
}
