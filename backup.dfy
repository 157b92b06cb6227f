/**
 * SQL export and import of the store (database/backup.rs): SQL literals for
 * column values, the import-script sanitiser, the dump layout, the check that
 * an import holds data, the rotation of binary backups and the order in
 * which an import touches the store.
 */
module Backup {
  import opened Wrappers
  import opened Values
  import opened Text
  import opened Sorting
  import opened Store
  import opened Files
  import opened Collections

  /** The bytes of a TEXT value: valid UTF-8 (decoded), or not, with the decoder's `Utf8Error` message. */
  datatype SqlText = Utf8(s: string) | NotUtf8(bytes: seq<Byte>, reason: string)

  /** The dump's error for a TEXT value that is not UTF-8. */
  function NotUtf8Error(reason: string): Error
  {
    Database("文本字段不是有效的 UTF-8: " + reason)
  }

  /** `rusqlite::types::ValueRef`: a column value as SQLite hands it out. */
  datatype SqlValue = Null | Integer(i: int) | Real(f: Float) | Text(t: SqlText) | Blob(bytes: seq<Byte>)

  // ---------------------------------------------------------------------------
  // Text literals: quote doubling
  // ---------------------------------------------------------------------------

  /** `text.replace('\'', "''")` */
  function Escape(s: string): string
  {
    ReplaceChar(s, '\'', "''")
  }

  /** The reading of an escaped text body: `''` stands for `'`, and a lone `'` is malformed. */
  function Unescape(s: string): Option<string>
  {
    if s == [] then Some([])
    else if s[0] == '\'' then
      if |s| >= 2 && s[1] == '\'' then
        var rest := Unescape(s[2..]);
        if rest.Some? then Some("'" + rest.value) else None
      else None
    else
      var rest := Unescape(s[1..]);
      if rest.Some? then Some([s[0]] + rest.value) else None
  }

  /** Quote doubling is undone by reading the literal back. */
  lemma {:induction false} EscapeRoundTrip(s: string)
    ensures Unescape(Escape(s)) == Some(s)
  {
    if s != [] {
      EscapeRoundTrip(s[1..]);
      if s[0] == '\'' {
        assert Escape(s) == "''" + Escape(s[1..]);
        assert Escape(s)[2..] == Escape(s[1..]);
      } else {
        assert Escape(s) == [s[0]] + Escape(s[1..]);
        assert Escape(s)[1..] == Escape(s[1..]);
      }
      assert s == [s[0]] + s[1..];
    }
  }

  // ---------------------------------------------------------------------------
  // Blob literals: two upper-case hex digits per byte
  // ---------------------------------------------------------------------------

  /** An upper-case hex digit. */
  function HexDigit(n: nat): char
    requires n < 16
  {
    if n < 10 then ('0' as int + n) as char else ('A' as int + n - 10) as char
  }

  /** `{b:02X}` */
  function HexByte(b: Byte): (r: string)
    ensures |r| == 2
  {
    [HexDigit(b / 16), HexDigit(b % 16)]
  }

  function Hex(bytes: seq<Byte>): (r: string)
    ensures |r| == 2 * |bytes|
  {
    if bytes == [] then [] else Hex(bytes[..|bytes| - 1]) + HexByte(bytes[|bytes| - 1])
  }

  /** The value of an upper-case hex digit. */
  function HexValue(c: char): (r: Option<nat>)
    ensures r.Some? ==> r.value < 16 && HexDigit(r.value) == c
  {
    if '0' <= c <= '9' then Some(c as int - '0' as int)
    else if 'A' <= c <= 'F' then Some(c as int - 'A' as int + 10)
    else None
  }

  lemma HexValueOfDigit(n: nat)
    requires n < 16
    ensures HexValue(HexDigit(n)) == Some(n)
  {
  }

  /** The reading partner of `Hex`: pairs of digits, most significant first. */
  function ParseHex(s: string): Option<seq<Byte>>
    decreases |s|
  {
    if s == [] then Some([])
    else if |s| < 2 then None
    else
      var hi := HexValue(s[|s| - 2]);
      var lo := HexValue(s[|s| - 1]);
      var front := ParseHex(s[..|s| - 2]);
      if hi.Some? && lo.Some? && front.Some? then Some(front.value + [hi.value * 16 + lo.value]) else None
  }

  /** Two digits appended to a parsable text parse to one more byte. */
  lemma ParseHexAppend(t: string, n: nat)
    requires n < 256
    ensures ParseHex(t + [HexDigit(n / 16), HexDigit(n % 16)])
            == if ParseHex(t).Some? then Some(ParseHex(t).value + [n]) else None
  {
    var s := t + [HexDigit(n / 16), HexDigit(n % 16)];
    assert s[..|s| - 2] == t;
    HexValueOfDigit(n / 16);
    HexValueOfDigit(n % 16);
  }

  lemma {:induction false} HexRoundTrip(bytes: seq<Byte>)
    ensures ParseHex(Hex(bytes)) == Some(bytes)
  {
    if bytes != [] {
      var front := bytes[..|bytes| - 1];
      var b := bytes[|bytes| - 1];
      HexRoundTrip(front);
      assert Hex(bytes) == Hex(front) + [HexDigit(b / 16), HexDigit(b % 16)];
      ParseHexAppend(Hex(front), b);
      assert front + [b] == bytes;
    }
  }

  /** The blob loop: `X'`, then each byte in hex, then `'`. */
  method FormatBlob(bytes: seq<Byte>) returns (s: string)
    ensures s == "X'" + Hex(bytes) + "'"
  {
    s := "X'";
    for i := 0 to |bytes|
      invariant s == "X'" + Hex(bytes[..i])
    {
      assert bytes[..i + 1][..i] == bytes[..i];
      s := s + HexByte(bytes[i]);
    }
    assert bytes[..|bytes|] == bytes;
    s := s + "'";
  }

  // ---------------------------------------------------------------------------
  // format_sql_value
  // ---------------------------------------------------------------------------

  /**
   * The SQL literal for a value: NULL, the integer's digits, the float's
   * `to_string` (given as `floatText`), a quoted text with quotes doubled, or
   * a hex blob; text that is not UTF-8 is an error.
   */
  function SqlLiteral(v: SqlValue, floatText: Float -> string): Result<string>
  {
    match v
    case Null => Ok("NULL")
    case Integer(i) => Ok(IntToString(i))
    case Real(f) => Ok(floatText(f))
    case Text(Utf8(s)) => Ok("'" + Escape(s) + "'")
    case Text(NotUtf8(_, reason)) => Err(NotUtf8Error(reason))
    case Blob(bytes) => Ok("X'" + Hex(bytes) + "'")
  }

  /** `format_sql_value` */
  method FormatSqlValue(v: SqlValue, floatText: Float -> string) returns (r: Result<string>)
    ensures r == SqlLiteral(v, floatText)
  {
    match v {
      case Null => r := Ok("NULL");
      case Integer(i) => r := Ok(IntToString(i));
      case Real(f) => r := Ok(floatText(f));
      case Text(t) =>
        if t.Utf8? {
          r := Ok("'" + Escape(t.s) + "'");
        } else {
          r := Err(NotUtf8Error(t.reason));
        }
      case Blob(bytes) =>
        var s := FormatBlob(bytes);
        r := Ok(s);
    }
  }

  /** How an import reads a literal back: the partner of `SqlLiteral` for every non-float value. */
  function ParseLiteral(s: string): Option<SqlValue>
  {
    if s == "NULL" then Some(Null)
    else if |s| >= 2 && s[0] == '\'' && s[|s| - 1] == '\'' then
      var body := Unescape(s[1..|s| - 1]);
      if body.Some? then Some(Text(Utf8(body.value))) else None
    else if |s| >= 3 && s[0] == 'X' && s[1] == '\'' && s[|s| - 1] == '\'' then
      var bytes := ParseHex(s[2..|s| - 1]);
      if bytes.Some? then Some(Blob(bytes.value)) else None
    else
      var i := ParseInt(s);
      if i.Some? then Some(Integer(i.value)) else None
  }

  lemma IntTextShape(i: int)
    ensures |IntToString(i)| >= 1
    ensures IntToString(i)[0] == '-' || IsDigit(IntToString(i)[0])
  {
  }

  /**
   * Every literal of a NULL, integer, UTF-8 text or blob reads back as the same
   * value; text that is not UTF-8 is the only error.
   */
  lemma LiteralRoundTrip(v: SqlValue, floatText: Float -> string)
    requires !v.Real?
    ensures SqlLiteral(v, floatText).Err? <==> v.Text? && v.t.NotUtf8?
    ensures v.Text? && v.t.NotUtf8? ==> SqlLiteral(v, floatText) == Err(NotUtf8Error(v.t.reason))
    ensures SqlLiteral(v, floatText).Ok? ==> ParseLiteral(SqlLiteral(v, floatText).value) == Some(v)
  {
    match v {
      case Null =>
      case Integer(i) =>
        IntTextShape(i);
        IntRoundTrip(i);
      case Text(t) =>
        if t.Utf8? {
          var s := "'" + Escape(t.s) + "'";
          assert s[1..|s| - 1] == Escape(t.s);
          EscapeRoundTrip(t.s);
        }
      case Blob(bytes) =>
        var s := "X'" + Hex(bytes) + "'";
        assert s[2..|s| - 1] == Hex(bytes);
        HexRoundTrip(bytes);
    }
  }

  // ---------------------------------------------------------------------------
  // sanitize_import_sql
  // ---------------------------------------------------------------------------

  const SequenceTable: string := "sqlite_sequence"

  /** A trimmed statement is kept when it is not empty and does not mention `sqlite_sequence` in any case. */
  predicate Keep(t: string)
  {
    t != [] && !Contains(ToLower(t), SequenceTable)
  }

  /** A `;`-separated piece, trimmed, if it is kept. */
  function KeepPiece(p: string): seq<string>
  {
    if Keep(Trim(p)) then [Trim(p)] else []
  }

  /** The kept statements of the `;`-separated pieces, trimmed, in order. */
  function Kept(pieces: seq<string>): seq<string>
  {
    FlatMap(pieces, KeepPiece)
  }

  function TerminateStatement(t: string): string
  {
    t + ";\n"
  }

  /** Each statement followed by `;` and a newline. */
  function Terminated(stmts: seq<string>): string
  {
    FlatMap(stmts, TerminateStatement)
  }

  /** What `sanitize_import_sql` returns. */
  function Sanitized(sql: string): string
  {
    Terminated(Kept(Split(sql, ';')))
  }

  /** `sanitize_import_sql`: the statement loop appending to `cleaned`. */
  method SanitizeImportSql(sql: string) returns (cleaned: string)
    ensures cleaned == Sanitized(sql)
  {
    var pieces := Split(sql, ';');
    cleaned := "";
    for i := 0 to |pieces|
      invariant cleaned == Terminated(Kept(pieces[..i]))
    {
      var trimmed := Trim(pieces[i]);
      assert pieces[..i + 1] == pieces[..i] + [pieces[i]];
      FlatMapSnoc(pieces[..i], pieces[i], KeepPiece);
      if trimmed == [] {
        assert Kept(pieces[..i + 1]) == Kept(pieces[..i]);
        continue;
      }
      if Contains(ToLower(trimmed), SequenceTable) {
        assert Kept(pieces[..i + 1]) == Kept(pieces[..i]);
        continue;
      }
      assert Kept(pieces[..i + 1]) == Kept(pieces[..i]) + [trimmed];
      FlatMapSnoc(Kept(pieces[..i]), trimmed, TerminateStatement);
      assert cleaned + trimmed + ";\n" == cleaned + TerminateStatement(trimmed);
      cleaned := cleaned + trimmed + ";\n";
      assert cleaned == Terminated(Kept(pieces[..i + 1]));
    }
    assert pieces[..|pieces|] == pieces;
  }

  /** A statement as the sanitiser emits it: kept, trimmed, and free of `;`. */
  predicate Clean(t: string)
  {
    Keep(t) && Trim(t) == t && ';' !in t
  }

  /** Every emitted statement is clean, and every kept piece is emitted. */
  lemma KeptClean(pieces: seq<string>)
    requires forall i :: 0 <= i < |pieces| ==> ';' !in pieces[i]
    ensures forall t :: t in Kept(pieces) ==> Clean(t)
    ensures forall i :: 0 <= i < |pieces| && Keep(Trim(pieces[i])) ==> Trim(pieces[i]) in Kept(pieces)
  {
    FlatMapMembers(pieces, KeepPiece);
    forall t | t in Kept(pieces) ensures Clean(t) {
      var i :| 0 <= i < |pieces| && t in KeepPiece(pieces[i]);
      TrimIdempotent(pieces[i]);
      TrimNoChar(pieces[i], ';');
    }
    forall i | 0 <= i < |pieces| && Keep(Trim(pieces[i])) ensures Trim(pieces[i]) in Kept(pieces) {
      assert Trim(pieces[i]) in KeepPiece(pieces[i]);
    }
  }

  lemma IndexOfAfterFree(a: string, b: string, c: char)
    requires c !in a
    ensures c in a + [c] + b && IndexOf(a + [c] + b, c) == |a|
  {
    var s := a + [c] + b;
    assert s[|a|] == c;
    assert s[..|a|] == a;
  }

  lemma SplitAfterFree(a: string, b: string, c: char)
    requires c !in a
    ensures Split(a + [c] + b, c) == [a] + Split(b, c)
  {
    var s := a + [c] + b;
    IndexOfAfterFree(a, b, c);
    assert s[..|a|] == a && s[|a| + 1..] == b;
  }

  lemma {:induction false} TrimStartWhitespacePrefix(p: string, k: string)
    requires AllWhitespace(p)
    ensures TrimStart(p + k) == TrimStart(k)
  {
    if p == [] {
      assert p + k == k;
    } else {
      assert (p + k)[0] == p[0] && IsWhitespace(p[0]);
      assert (p + k)[1..] == p[1..] + k;
      assert AllWhitespace(p[1..]) by {
        forall i | 0 <= i < |p[1..]| ensures IsWhitespace(p[1..][i]) {
          assert p[1..][i] == p[i + 1];
        }
      }
      TrimStartWhitespacePrefix(p[1..], k);
      assert TrimStart(p + k) == TrimStart((p + k)[1..]);
    }
  }

  lemma TrimClean(p: string, k: string)
    requires AllWhitespace(p) && k != [] && Trim(k) == k
    ensures Trim(p + k) == k
  {
    TrimStartWhitespacePrefix(p, k);
    var t := TrimStart(k);
    TrimStartShape(k);
    TrimEndShape(t);
    assert |TrimEnd(t)| <= |t| <= |k|;
    assert t == k;
  }

  /** A blank piece without `;` splits to itself and is dropped. */
  lemma KeptOfBlank(p: string)
    requires AllWhitespace(p) && ';' !in p
    ensures Kept(Split(p, ';')) == []
  {
    BlankIffAllWhitespace(p);
    assert Split(p, ';') == [p];
    assert KeepPiece(p) == [];
    assert [p][1..] == [];
    assert Kept([p]) == KeepPiece(p) + Kept([]);
  }

  /** A clean statement after a blank prefix and before a `;` is kept as it is. */
  lemma KeptOfClean(p: string, k: string, rest: string)
    requires AllWhitespace(p) && ';' !in p && Clean(k)
    ensures Kept(Split(p + k + [';'] + rest, ';')) == [k] + Kept(Split(rest, ';'))
  {
    SplitAfterFree(p + k, rest, ';');
    TrimClean(p, k);
    assert KeepPiece(p + k) == [k];
    var pieces := [p + k] + Split(rest, ';');
    assert pieces[0] == p + k && pieces[1..] == Split(rest, ';');
  }

  /** Splitting what the sanitiser emitted (after a whitespace prefix) gives back the statements. */
  lemma {:induction false} KeptOfTerminated(p: string, stmts: seq<string>)
    requires AllWhitespace(p) && ';' !in p
    requires forall t :: t in stmts ==> Clean(t)
    ensures Kept(Split(p + Terminated(stmts), ';')) == stmts
    decreases |stmts|
  {
    if stmts == [] {
      assert p + Terminated(stmts) == p;
      KeptOfBlank(p);
    } else {
      var k := stmts[0];
      assert Clean(k) by {
        assert k in stmts;
      }
      var rest := "\n" + Terminated(stmts[1..]);
      assert p + Terminated(stmts) == p + k + [';'] + rest;
      KeptOfClean(p, k, rest);
      assert AllWhitespace("\n");
      KeptOfTerminated("\n", stmts[1..]);
    }
  }

  /** Sanitising is idempotent: the sanitised script is its own sanitisation. */
  lemma SanitizeIdempotent(sql: string)
    ensures Sanitized(Sanitized(sql)) == Sanitized(sql)
  {
    var stmts := Kept(Split(sql, ';'));
    KeptClean(Split(sql, ';'));
    KeptOfTerminated("", stmts);
    assert "" + Terminated(stmts) == Terminated(stmts);
  }

  // ---------------------------------------------------------------------------
  // validate_basic_state
  // ---------------------------------------------------------------------------

  /** The refusal of an import that holds neither a provider nor an MCP server. */
  const NoDataMessage := "导入的 SQL 未包含有效的供应商或 MCP 数据"

  /** `validate_basic_state`: an import must hold at least one provider or MCP server. */
  function ValidateBasicState(t: Tables): (r: Result<()>)
    ensures r.Err? <==> |t.providers| == 0 && |t.mcpServers| == 0
    ensures r.Err? ==> r.error == Config(NoDataMessage)
  {
    if |t.providers| == 0 && |t.mcpServers| == 0 then Err(Config(NoDataMessage))
    else Ok(())
  }

  // ---------------------------------------------------------------------------
  // dump_sql
  // ---------------------------------------------------------------------------

  /** A `sqlite_master` row: `type`, `name` and the creating `sql`. */
  datatype SchemaObject = SchemaObject(kind: string, name: string, sql: Option<string>)

  /** A table's columns (`PRAGMA table_info`) and its rows, each with one value per column. */
  datatype TableData = TableData(columns: seq<string>, rows: seq<seq<SqlValue>>)

  predicate WellFormedTable(d: TableData)
  {
    forall r :: r in d.rows ==> |r| == |d.columns|
  }

  /** The schema query's filter: an object with SQL of one of the four dumped kinds. */
  predicate Dumpable(o: SchemaObject)
  {
    o.sql.Some? && o.kind in {"table", "index", "trigger", "view"}
  }

  /** `ORDER BY type='table' DESC, name` */
  function ObjectKey(o: SchemaObject): Key
  {
    [KInt(if o.kind == "table" then 0 else 1), KStr(o.name)]
  }

  function Header(timestamp: string, version: int): string
  {
    "-- CC Switch SQLite 导出\n-- 生成时间: " + timestamp + "\n-- user_version: " + IntToString(version) + "\n" +
    "PRAGMA foreign_keys=OFF;\n" + "PRAGMA user_version=" + IntToString(version) + ";\n" + "BEGIN TRANSACTION;\n"
  }

  const Footer: string := "COMMIT;\nPRAGMA foreign_keys=ON;\n"

  function Quoted(name: string): string
  {
    "\"" + name + "\""
  }

  /** The column list `"a", "b", ...` (also used for values, unquoted). */
  function JoinComma(parts: seq<string>): string
  {
    if parts == [] then [] else if |parts| == 1 then parts[0] else parts[0] + ", " + JoinComma(parts[1..])
  }

  function QuotedAll(names: seq<string>): (r: seq<string>)
    ensures |r| == |names| && forall i :: 0 <= i < |names| ==> r[i] == Quoted(names[i])
  {
    if names == [] then [] else [Quoted(names[0])] + QuotedAll(names[1..])
  }

  /** The literals of a row, or the first value's error. */
  function Literals(vals: seq<SqlValue>, floatText: Float -> string): (r: Result<seq<string>>)
    ensures r.Ok? ==> |r.value| == |vals|
    decreases |vals|
  {
    if vals == [] then Ok([])
    else
      var front := Literals(vals[..|vals| - 1], floatText);
      var last := SqlLiteral(vals[|vals| - 1], floatText);
      if front.Err? then front
      else if last.Err? then Err(last.error)
      else Ok(front.value + [last.value])
  }

  function InsertLine(table: string, columns: seq<string>, literals: seq<string>): string
  {
    "INSERT INTO " + Quoted(table) + " (" + JoinComma(QuotedAll(columns)) + ") VALUES (" + JoinComma(literals) + ");\n"
  }

  /** The INSERT lines of a table's rows, or the first failing value's error. */
  function RowsText(table: string, columns: seq<string>, rows: seq<seq<SqlValue>>, floatText: Float -> string): Result<string>
    decreases |rows|
  {
    if rows == [] then Ok([])
    else
      var front := RowsText(table, columns, rows[..|rows| - 1], floatText);
      var lits := Literals(rows[|rows| - 1], floatText);
      if front.Err? then front
      else if lits.Err? then Err(lits.error)
      else Ok(front.value + InsertLine(table, columns, lits.value))
  }

  /** The data section: tables without columns are skipped. */
  function DataText(tables: seq<string>, data: map<string, TableData>, floatText: Float -> string): Result<string>
    decreases |tables|
  {
    if tables == [] then Ok([])
    else
      var front := DataText(tables[..|tables| - 1], data, floatText);
      var t := tables[|tables| - 1];
      var d := if t in data then data[t] else TableData([], []);
      if front.Err? then front
      else if d.columns == [] then front
      else
        var rows := RowsText(t, d.columns, d.rows, floatText);
        if rows.Err? then rows else Ok(front.value + rows.value)
  }

  /** The schema section: each object's SQL, skipping `sqlite_*` names. */
  function SchemaText(objects: seq<SchemaObject>): string
  {
    if objects == [] then []
    else
      var o := objects[|objects| - 1];
      SchemaText(objects[..|objects| - 1]) +
        (if StartsWith(o.name, "sqlite_") then [] else o.sql.UnwrapOr([]) + ";\n")
  }

  /** The tables whose rows are dumped: the non-internal objects of type `table`, in order. */
  function DumpedTables(objects: seq<SchemaObject>): seq<string>
  {
    if objects == [] then []
    else
      var o := objects[|objects| - 1];
      DumpedTables(objects[..|objects| - 1]) +
        (if !StartsWith(o.name, "sqlite_") && o.kind == "table" then [o.name] else [])
  }

  /** The whole dump for schema objects in query order. */
  function DumpText(timestamp: string, version: int, objects: seq<SchemaObject>, data: map<string, TableData>,
                    floatText: Float -> string): Result<string>
  {
    var body := DataText(DumpedTables(objects), data, floatText);
    if body.Err? then body
    else Ok(Header(timestamp, version) + SchemaText(objects) + body.value + Footer)
  }

  /** A successful dump opens with the header and closes with the footer. */
  lemma DumpFrame(timestamp: string, version: int, objects: seq<SchemaObject>, data: map<string, TableData>,
                  floatText: Float -> string)
    requires DumpText(timestamp, version, objects, data, floatText).Ok?
    ensures StartsWith(DumpText(timestamp, version, objects, data, floatText).value, Header(timestamp, version))
    ensures var s := DumpText(timestamp, version, objects, data, floatText).value;
      |s| >= |Footer| && s[|s| - |Footer|..] == Footer
  {
  }

  /** Whether some dumped value is text that is not UTF-8. */
  predicate HasBadText(rows: seq<seq<SqlValue>>)
  {
    exists i, j :: 0 <= i < |rows| && 0 <= j < |rows[i]| && rows[i][j].Text? && rows[i][j].t.NotUtf8?
  }

  lemma {:induction false} LiteralsErr(vals: seq<SqlValue>, floatText: Float -> string)
    ensures Literals(vals, floatText).Err? <==> exists j :: 0 <= j < |vals| && vals[j].Text? && vals[j].t.NotUtf8?
    decreases |vals|
  {
    if vals != [] {
      var front := vals[..|vals| - 1];
      LiteralsErr(front, floatText);
      if exists j :: 0 <= j < |front| && front[j].Text? && front[j].t.NotUtf8? {
        var j :| 0 <= j < |front| && front[j].Text? && front[j].t.NotUtf8?;
        assert vals[j] == front[j];
      }
      if exists j :: 0 <= j < |vals| && vals[j].Text? && vals[j].t.NotUtf8? {
        var j :| 0 <= j < |vals| && vals[j].Text? && vals[j].t.NotUtf8?;
        if j < |front| {
          assert front[j] == vals[j];
        }
      }
    }
  }

  /** A table's rows dump unless one of its values is text that is not UTF-8. */
  lemma {:induction false} RowsTextErr(table: string, columns: seq<string>, rows: seq<seq<SqlValue>>, floatText: Float -> string)
    ensures RowsText(table, columns, rows, floatText).Err? <==> HasBadText(rows)
    decreases |rows|
  {
    if rows != [] {
      var front := rows[..|rows| - 1];
      var last := rows[|rows| - 1];
      RowsTextErr(table, columns, front, floatText);
      LiteralsErr(last, floatText);
      if HasBadText(front) {
        var i, j :| 0 <= i < |front| && 0 <= j < |front[i]| && front[i][j].Text? && front[i][j].t.NotUtf8?;
        assert rows[i] == front[i];
      }
      if exists j :: 0 <= j < |last| && last[j].Text? && last[j].t.NotUtf8? {
        var j :| 0 <= j < |last| && last[j].Text? && last[j].t.NotUtf8?;
        assert rows[|rows| - 1] == last;
      }
      if HasBadText(rows) {
        var i, j :| 0 <= i < |rows| && 0 <= j < |rows[i]| && rows[i][j].Text? && rows[i][j].t.NotUtf8?;
        if i < |front| {
          assert front[i] == rows[i];
        }
      }
    }
  }

  /** The value-formatting loop of one row. */
  method FormatRow(vals: seq<SqlValue>, floatText: Float -> string) returns (r: Result<seq<string>>)
    ensures r == Literals(vals, floatText)
  {
    var out: seq<string> := [];
    for i := 0 to |vals|
      invariant Literals(vals[..i], floatText) == Ok(out)
    {
      assert vals[..i + 1][..i] == vals[..i];
      var lit := FormatSqlValue(vals[i], floatText);
      if lit.Err? {
        r := Err(lit.error);
        LiteralsPrefixErr(vals, i + 1, floatText);
        return;
      }
      out := out + [lit.value];
    }
    assert vals[..|vals|] == vals;
    r := Ok(out);
  }

  /** An error in a prefix of the values is the error of the whole row. */
  lemma {:induction false} LiteralsPrefixErr(vals: seq<SqlValue>, n: nat, floatText: Float -> string)
    requires n <= |vals| && Literals(vals[..n], floatText).Err?
    ensures Literals(vals, floatText) == Literals(vals[..n], floatText)
    decreases |vals| - n
  {
    if n < |vals| {
      assert vals[..n + 1][..n] == vals[..n];
      LiteralsPrefixErr(vals, n + 1, floatText);
    } else {
      assert vals[..n] == vals;
    }
  }

  lemma {:induction false} RowsPrefixErr(table: string, columns: seq<string>, rows: seq<seq<SqlValue>>, n: nat,
                                         floatText: Float -> string)
    requires n <= |rows| && RowsText(table, columns, rows[..n], floatText).Err?
    ensures RowsText(table, columns, rows, floatText) == RowsText(table, columns, rows[..n], floatText)
    decreases |rows| - n
  {
    if n < |rows| {
      assert rows[..n + 1][..n] == rows[..n];
      RowsPrefixErr(table, columns, rows, n + 1, floatText);
    } else {
      assert rows[..n] == rows;
    }
  }

  lemma {:induction false} DataPrefixErr(tables: seq<string>, data: map<string, TableData>, n: nat,
                                         floatText: Float -> string)
    requires n <= |tables| && DataText(tables[..n], data, floatText).Err?
    ensures DataText(tables, data, floatText) == DataText(tables[..n], data, floatText)
    decreases |tables| - n
  {
    if n < |tables| {
      assert tables[..n + 1][..n] == tables[..n];
      DataPrefixErr(tables, data, n + 1, floatText);
    } else {
      assert tables[..n] == tables;
    }
  }

  /** The row loop of one table. */
  method DumpRows(table: string, d: TableData, floatText: Float -> string) returns (r: Result<string>)
    ensures r == RowsText(table, d.columns, d.rows, floatText)
  {
    var out := "";
    for i := 0 to |d.rows|
      invariant RowsText(table, d.columns, d.rows[..i], floatText) == Ok(out)
    {
      assert d.rows[..i + 1][..i] == d.rows[..i];
      var lits := FormatRow(d.rows[i], floatText);
      if lits.Err? {
        r := Err(lits.error);
        RowsPrefixErr(table, d.columns, d.rows, i + 1, floatText);
        return;
      }
      out := out + InsertLine(table, d.columns, lits.value);
    }
    assert d.rows[..|d.rows|] == d.rows;
    r := Ok(out);
  }

  /**
   * `dump_sql`: the header (with `user_version`, 0 when it cannot be read), the
   * schema objects in `table`-first, name order without `sqlite_*` ones, one
   * INSERT per row of each dumped table, and the footer.
   */
  method DumpSql(timestamp: string, userVersion: Option<int>, master: set<SchemaObject>,
                 data: map<string, TableData>, floatText: Float -> string) returns (r: Result<string>)
    ensures exists objects ::
      SortedBy(objects, ObjectKey) && (forall o :: o in objects <==> o in master && Dumpable(o)) &&
      r == DumpText(timestamp, userVersion.UnwrapOr(0), objects, data, floatText)
  {
    var dumpable := set o | o in master && Dumpable(o);
    var objects := Ordered(dumpable, ObjectKey);
    var schema, tables := DumpSchema(objects);
    var body := DumpData(tables, data, floatText);
    if body.Err? {
      return Err(body.error);
    }
    r := Ok(Header(timestamp, userVersion.UnwrapOr(0)) + schema + body.value + Footer);
  }

  /** The schema part of `dump_sql`: each object's SQL, and the tables whose rows follow. */
  method DumpSchema(objects: seq<SchemaObject>) returns (schema: string, tables: seq<string>)
    ensures schema == SchemaText(objects) && tables == DumpedTables(objects)
  {
    schema := "";
    tables := [];
    for i := 0 to |objects|
      invariant schema == SchemaText(objects[..i]) && tables == DumpedTables(objects[..i])
    {
      var o := objects[i];
      assert objects[..i + 1][..i] == objects[..i];
      if StartsWith(o.name, "sqlite_") {
        continue;
      }
      schema := schema + o.sql.UnwrapOr([]) + ";\n";
      if o.kind == "table" {
        tables := tables + [o.name];
      }
    }
    assert objects[..|objects|] == objects;
  }

  /** The data part of `dump_sql`: the INSERTs of each table in turn, stopping at a value that cannot be written. */
  method DumpData(tables: seq<string>, data: map<string, TableData>, floatText: Float -> string) returns (r: Result<string>)
    ensures r == DataText(tables, data, floatText)
  {
    var body := "";
    for i := 0 to |tables|
      invariant DataText(tables[..i], data, floatText) == Ok(body)
    {
      assert tables[..i + 1][..i] == tables[..i];
      var t := tables[i];
      var d := if t in data then data[t] else TableData([], []);
      if d.columns == [] {
        continue;
      }
      var rows := DumpRows(t, d, floatText);
      if rows.Err? {
        r := Err(rows.error);
        DataPrefixErr(tables, data, i + 1, floatText);
        return;
      }
      body := body + rows.value;
    }
    assert tables[..|tables|] == tables;
    r := Ok(body);
  }

  // ---------------------------------------------------------------------------
  // backup_database_file, cleanup_db_backups and import_sql
  // ---------------------------------------------------------------------------

  /** `db_backup_<timestamp>`, the id of a binary backup. */
  function BackupId(stamp: string): string
  {
    "db_backup_" + stamp
  }

  /**
   * `backup_database_file` followed by `cleanup_db_backups`: when the store's
   * file exists, a copy of every table is written as `<id>.db` at time `now`,
   * then all but the `retain` newest `.db` files are deleted, oldest first.
   * Returns the backup's file name.
   */
  method BackupDatabaseFile(db: Database, dir: Folder<Tables>, dbFileExists: bool, stamp: string, now: int, retain: nat)
    returns (path: Option<string>, removed: seq<string>)
    modifies dir
    ensures !dbFileExists ==> path.None? && removed == [] && dir.files == old(dir.files)
    ensures dbFileExists ==> path == Some(BackupId(stamp) + ".db")
    ensures dbFileExists ==> PrunedTo(old(dir.files)[BackupId(stamp) + ".db" := FileEntry(Some(now), db.Contents())], dir.files, "db", retain)
    ensures dbFileExists ==> var written := old(dir.files)[BackupId(stamp) + ".db" := FileEntry(Some(now), db.Contents())];
      dir.files == written - Elements(removed) &&
      |removed| == (if |WithExtension(written, "db")| <= retain then 0 else |WithExtension(written, "db")| - retain) &&
      (forall n :: n in removed ==> n in WithExtension(written, "db")) &&
      forall d, k :: d in WithExtension(written, "db") && d in removed && k in WithExtension(written, "db") && k !in removed ==>
        MtimeLe(written[d].mtime, written[k].mtime)
  {
    if !dbFileExists {
      return None, [];
    }
    var name := BackupId(stamp) + ".db";
    dir.Write(name, db.Contents(), now);
    ghost var written := dir.files;
    removed := dir.RemoveOldest("db", retain);
    PrunedByRemoving(written, removed, "db", retain);
    path := Some(name);
  }

  /** The id of a backup is its timestamped name. */
  lemma BackupIdStem(stamp: string)
    requires '.' !in stamp
    ensures FileStem(BackupId(stamp) + ".db") == BackupId(stamp)
  {
    var name := BackupId(stamp) + ".db";
    assert name[..|name| - 3] == BackupId(stamp);
    assert name[|name| - 2..] == "db";
    assert name[|name| - 3] == '.';
    assert '.' !in name[|name| - 2..];
    assert LastDot(name) == Some(|name| - 3);
  }

  /** The SQL file an import reads. */
  datatype SourceFile = Missing | Unreadable | Holds(text: string)

  /** Running a script into a scratch store: its tables, or SQLite's error text. */
  datatype Execution = Executed(tables: Tables) | Failed(reason: string)

  /** The error of a script SQLite refuses. */
  function ExecuteError(reason: string): Error
  {
    Database("执行 SQL 导入失败: " + reason)
  }

  /** The error of a source file that does not exist. */
  function MissingSqlError(path: string): Error
  {
    InvalidInput("SQL 文件不存在: " + path)
  }

  /**
   * `import_sql`: a missing or unreadable source fails before anything happens;
   * otherwise the script is sanitised, the store is backed up (when its file
   * exists, the backup is written and old backups are pruned), and the script
   * is run into a scratch store (`execute`), which is completed by the table
   * creation and schema migrations (`prepare`) and checked by
   * `validate_basic_state`. Only when all of that succeeds are the store's
   * tables replaced by the scratch store's; the backup stays either way. The
   * result is the backup's id, or empty when there was no store file to back
   * up.
   */
  method ImportSql(db: Database, dir: Folder<Tables>, path: string, source: SourceFile, dbFileExists: bool,
                   stamp: string, now: int, retain: nat,
                   execute: string -> Execution, prepare: Tables -> Result<Tables>) returns (r: Result<string>)
    modifies db, dir
    ensures source.Missing? ==> r == Err(MissingSqlError(path))
    ensures !source.Holds? ==> r.Err? && db.NoTableChanged() && dir.files == old(dir.files)
    ensures source.Holds? && !dbFileExists ==> dir.files == old(dir.files)
    ensures source.Holds? && dbFileExists ==>
      PrunedTo(old(dir.files)[BackupId(stamp) + ".db" := FileEntry(Some(now), old(db.Contents()))], dir.files, "db", retain)
    ensures source.Holds? ==>
      var run := execute(Sanitized(source.text));
      var prepared := if run.Executed? then prepare(run.tables) else Err(ExecuteError(run.reason));
      var ok := prepared.Ok? && ValidateBasicState(prepared.value).Ok?;
      (r.Ok? <==> ok) &&
      (ok ==> db.Contents() == prepared.value && |db.providers| + |db.mcpServers| > 0) &&
      (!ok ==> db.NoTableChanged()) &&
      (r.Err? && !prepared.Ok? ==> r.error == prepared.error) &&
      (r.Ok? ==> r.value == if dbFileExists then FileStem(BackupId(stamp) + ".db") else "")
  {
    if source.Missing? {
      return Err(MissingSqlError(path));
    }
    if source.Unreadable? {
      return Err(Io("cannot read " + path));
    }
    var sql := SanitizeImportSql(source.text);
    var backupPath, _ := BackupDatabaseFile(db, dir, dbFileExists, stamp, now, retain);
    var run := execute(sql);
    if run.Failed? {
      return Err(ExecuteError(run.reason));
    }
    var prepared := prepare(run.tables);
    if prepared.Err? {
      return Err(prepared.error);
    }
    var valid := ValidateBasicState(prepared.value);
    if valid.Err? {
      return Err(valid.error);
    }
    db.Overwrite(prepared.value);
    r := Ok(if backupPath.Some? then FileStem(backupPath.value) else "");
  }
}
