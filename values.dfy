/**
 * The shared vocabulary: the five target applications, JSON values as serde_json
 * holds them, and TOML values as the toml crates hold them.
 */
module Values {
  import opened Wrappers

  /** A byte of file or column content. */
  type Byte = b: int | 0 <= b < 256

  /** The five target applications. */
  datatype AppType = Claude | Codex | Gemini | Grok | Qwen

  /** `AppType::as_str`: the lower-case name used as the `app_type` column value. */
  function AppName(a: AppType): string
  {
    match a
    case Claude => "claude"
    case Codex => "codex"
    case Gemini => "gemini"
    case Grok => "grok"
    case Qwen => "qwen"
  }

  /** `AppType::from_str`, taken to accept exactly the five lower-case names. */
  function ParseApp(s: string): (r: Option<AppType>)
    ensures r.Some? ==> AppName(r.value) == s
  {
    if s == "claude" then Some(Claude)
    else if s == "codex" then Some(Codex)
    else if s == "gemini" then Some(Gemini)
    else if s == "grok" then Some(Grok)
    else if s == "qwen" then Some(Qwen)
    else None
  }

  /** Names and parsing are inverse to each other. */
  lemma AppNameRoundTrip(a: AppType)
    ensures ParseApp(AppName(a)) == Some(a)
  {
  }

  const AllApps: seq<AppType> := [Claude, Codex, Gemini, Grok, Qwen]

  /** The position of an application in `AllApps`, the order the per-application loops follow. */
  function AppIndex(a: AppType): (i: nat)
    ensures i < |AllApps| && AllApps[i] == a
  {
    match a
    case Claude => 0
    case Codex => 1
    case Gemini => 2
    case Grok => 3
    case Qwen => 4
  }

  /** `AllApps` lists each application once. */
  lemma AppIndexOf(i: nat)
    requires i < |AllApps|
    ensures AppIndex(AllApps[i]) == i
  {
  }

  /** A 64-bit float, kept as its bit pattern; no arithmetic is done on it. */
  datatype Float = Float(bits: bv64)

  /** A JSON value. Object key order is not modelled. */
  datatype Json =
    | JNull
    | JBool(b: bool)
    | JInt(i: int)
    | JFloat(f: Float)
    | JStr(s: string)
    | JArr(items: seq<Json>)
    | JObj(fields: map<string, Json>)

  const I64Min: int := -0x8000_0000_0000_0000
  const I64Max: int := 0x7FFF_FFFF_FFFF_FFFF

  /** serde_json's `Number::as_i64` succeeds exactly on the signed 64-bit range. */
  predicate IsI64(i: int)
  {
    I64Min <= i <= I64Max
  }

  const EmptyObject: Json := JObj(map[])

  /** `Value::get(key)`: a field of an object; anything else has no fields. */
  function Get(v: Json, key: string): (r: Option<Json>)
    ensures r.Some? <==> v.JObj? && key in v.fields
  {
    if v.JObj? && key in v.fields then Some(v.fields[key]) else None
  }

  /** `Value::get(key).and_then(as_str)` */
  function GetStr(v: Json, key: string): (r: Option<string>)
    ensures r.Some? <==> v.JObj? && key in v.fields && v.fields[key].JStr?
  {
    if v.JObj? && key in v.fields && v.fields[key].JStr? then Some(v.fields[key].s) else None
  }

  /** `Value::get(key).and_then(as_bool)` */
  function GetBool(v: Json, key: string): Option<bool>
  {
    if v.JObj? && key in v.fields && v.fields[key].JBool? then Some(v.fields[key].b) else None
  }

  /** A TOML value. Inline and standard tables are not told apart. */
  datatype Toml =
    | TStr(s: string)
    | TInt(i: int)
    | TFloat(f: Float)
    | TBool(b: bool)
    | TDatetime(text: string)
    | TArray(items: seq<Toml>)
    | TTable(entries: map<string, Toml>)

  /** A TOML document is its top-level table. */
  type TomlDoc = map<string, Toml>

  /** `item.as_table_like()` / `value.as_table()` */
  function AsTable(t: Toml): Option<map<string, Toml>>
  {
    if t.TTable? then Some(t.entries) else None
  }

  /** Keeps the string-valued entries of a map. */
  function StringEntries<V>(m: map<string, V>, asStr: V -> Option<string>): (r: map<string, string>)
    ensures r.Keys <= m.Keys
    ensures forall k :: k in m && asStr(m[k]).Some? ==> k in r && r[k] == asStr(m[k]).value
    ensures forall k :: k in r ==> asStr(m[k]) == Some(r[k])
  {
    map k | k in m && asStr(m[k]).Some? :: asStr(m[k]).value
  }

  function TomlAsStr(t: Toml): Option<string>
  {
    if t.TStr? then Some(t.s) else None
  }

  function JsonAsStr(j: Json): Option<string>
  {
    if j.JStr? then Some(j.s) else None
  }

  /** A map of strings as a JSON object of strings. */
  function StrMapToJson(m: map<string, string>): (r: Json)
    ensures r.JObj? && r.fields.Keys == m.Keys
    ensures forall k :: k in m ==> r.fields[k] == JStr(m[k])
  {
    JObj(map k | k in m :: JStr(m[k]))
  }

  /** A map of strings as a TOML table of strings. */
  function StrMapToToml(m: map<string, string>): (r: Toml)
    ensures r.TTable? && r.entries.Keys == m.Keys
    ensures forall k :: k in m ==> r.entries[k] == TStr(m[k])
  {
    TTable(map k | k in m :: TStr(m[k]))
  }
}
