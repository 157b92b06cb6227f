/**
 * The schema catalogue and the `user_version` migration engine of the store
 * (database/schema.rs). The catalogue is the list of tables with their
 * columns; SQLite resolves table and column names without regard to ASCII case.
 */
module Schema {
  import opened Wrappers
  import opened Text

  /** The version the code understands. */
  const SchemaVersion: int := 1

  datatype Column = Column(name: string, decl: string)
  datatype Table = Table(name: string, columns: seq<Column>)

  /** One `add_column_if_missing(table, column, decl)` call. */
  datatype AddStep = AddStep(table: string, column: string, decl: string)

  predicate IsIdentChar(c: char)
  {
    'a' <= c <= 'z' || 'A' <= c <= 'Z' || '0' <= c <= '9' || c == '_'
  }

  /** The identifier kinds `validate_identifier` names in its errors. */
  const TableKind := "表名"
  const ColumnKind := "列名"

  /** `validate_identifier`: a non-empty run of ASCII letters, digits and `_`; `kind` names the identifier in the error. */
  function ValidateIdentifier(s: string, kind: string): (r: Result<()>)
    ensures s == [] ==> r == Err(Database(kind + " 不能为空"))
    ensures s != [] && r.Err? ==> r == Err(Database("非法" + kind + ": " + s + "，仅允许字母、数字和下划线"))
  {
    if s == [] then Err(Database(kind + " 不能为空"))
    else if forall i :: 0 <= i < |s| ==> IsIdentChar(s[i]) then Ok(())
    else Err(Database("非法" + kind + ": " + s + "，仅允许字母、数字和下划线"))
  }

  /**
   * A validated identifier can be placed between double quotes in the SQL text
   * of `PRAGMA table_info` and `ALTER TABLE` without ending the quoted name or
   * the statement, and validation accepts exactly the non-empty names over
   * letters, digits and `_`.
   */
  lemma ValidIdentifierIsSafe(s: string, kind: string)
    ensures ValidateIdentifier(s, kind).Ok? <==> s != [] && forall i :: 0 <= i < |s| ==> IsIdentChar(s[i])
    ensures ValidateIdentifier(s, kind).Ok? ==> '"' !in s && ';' !in s && ' ' !in s && '\'' !in s
  {
    if ValidateIdentifier(s, kind).Ok? {
      forall i | 0 <= i < |s| ensures s[i] != '"' && s[i] != ';' && s[i] != ' ' && s[i] != '\'' {
        assert IsIdentChar(s[i]);
      }
    }
  }

  /** The first table whose name matches `name` without regard to ASCII case. */
  function FindTable(ts: seq<Table>, name: string): (r: Option<nat>)
    ensures r.Some? ==> r.value < |ts| && EqIgnoreAsciiCase(ts[r.value].name, name)
    ensures r.Some? ==> forall i :: 0 <= i < r.value ==> !EqIgnoreAsciiCase(ts[i].name, name)
    ensures r.None? ==> forall i :: 0 <= i < |ts| ==> !EqIgnoreAsciiCase(ts[i].name, name)
  {
    if ts == [] then None
    else if EqIgnoreAsciiCase(ts[0].name, name) then Some(0)
    else match FindTable(ts[1..], name)
      case None => None
      case Some(k) => Some(k + 1)
  }

  /** `ts[i]` is the first table whose name matches `name` without regard to ASCII case. */
  predicate FirstNamed(ts: seq<Table>, i: nat, name: string)
    requires i < |ts|
  {
    EqIgnoreAsciiCase(ts[i].name, name) && forall j :: 0 <= j < i ==> !EqIgnoreAsciiCase(ts[j].name, name)
  }

  predicate ColumnIn(cols: seq<Column>, name: string)
  {
    exists i :: 0 <= i < |cols| && EqIgnoreAsciiCase(cols[i].name, name)
  }

  /** `table_exists`: validation, then a case-insensitive lookup of the table name. */
  function TableExists(ts: seq<Table>, table: string): (r: Result<bool>)
    ensures r.Err? <==> ValidateIdentifier(table, TableKind).Err?
    ensures r.Ok? ==> (r.value <==> exists i :: 0 <= i < |ts| && EqIgnoreAsciiCase(ts[i].name, table))
  {
    if ValidateIdentifier(table, TableKind).Err? then Err(ValidateIdentifier(table, TableKind).error)
    else Ok(FindTable(ts, table).Some?)
  }

  /** `has_column`: both names validated; a missing table has no columns. */
  function HasColumn(ts: seq<Table>, table: string, column: string): (r: Result<bool>)
    ensures r.Err? <==> ValidateIdentifier(table, TableKind).Err? || ValidateIdentifier(column, ColumnKind).Err?
    ensures r.Ok? && r.value ==> FindTable(ts, table).Some?
    ensures r.Ok? ==> (r.value <==> exists i :: 0 <= i < |ts| && FirstNamed(ts, i, table) && ColumnIn(ts[i].columns, column))
  {
    if ValidateIdentifier(table, TableKind).Err? then Err(ValidateIdentifier(table, TableKind).error)
    else if ValidateIdentifier(column, ColumnKind).Err? then Err(ValidateIdentifier(column, ColumnKind).error)
    else match FindTable(ts, table)
      case None => Ok(false)
      case Some(i) => Ok(ColumnIn(ts[i].columns, column))
  }

  /** The error of `add_column_if_missing` for a table that does not exist. */
  function MissingTableMessage(table: string, column: string): string
  {
    "表 " + table + " 不存在，无法添加列 " + column
  }

  /** The outcome of `add_column_if_missing`: whether it added, and the new catalogue. */
  function AddColumn(ts: seq<Table>, table: string, column: string, decl: string): Result<(bool, seq<Table>)>
  {
    if ValidateIdentifier(table, TableKind).Err? then Err(ValidateIdentifier(table, TableKind).error)
    else if ValidateIdentifier(column, ColumnKind).Err? then Err(ValidateIdentifier(column, ColumnKind).error)
    else match FindTable(ts, table)
      case None => Err(Database(MissingTableMessage(table, column)))
      case Some(i) =>
        if ColumnIn(ts[i].columns, column) then Ok((false, ts))
        else Ok((true, ts[i := Table(ts[i].name, ts[i].columns + [Column(column, decl)])]))
  }

  /** Only the named table changes, and only by gaining the one column. */
  lemma AddColumnEffect(ts: seq<Table>, table: string, column: string, decl: string)
    ensures AddColumn(ts, table, column, decl).Err? <==>
      (ValidateIdentifier(table, TableKind).Err? || ValidateIdentifier(column, ColumnKind).Err? || TableExists(ts, table) == Ok(false))
    ensures ValidateIdentifier(table, TableKind).Ok? && ValidateIdentifier(column, ColumnKind).Ok? && TableExists(ts, table) == Ok(false) ==>
      AddColumn(ts, table, column, decl) == Err(Database(MissingTableMessage(table, column)))
    ensures AddColumn(ts, table, column, decl).Ok? ==>
      var (added, ts') := AddColumn(ts, table, column, decl).value;
      && added == (HasColumn(ts, table, column) == Ok(false))
      && HasColumn(ts', table, column) == Ok(true)
      && |ts'| == |ts|
      && (forall k :: 0 <= k < |ts| ==> ts'[k].name == ts[k].name && ts[k].columns <= ts'[k].columns)
      && (!added ==> ts' == ts)
      && (added ==> (exists i :: (0 <= i < |ts| && EqIgnoreAsciiCase(ts[i].name, table)
                         && ts'[i].columns == ts[i].columns + [Column(column, decl)]
                         && forall k :: 0 <= k < |ts| && k != i ==> ts'[k] == ts[k])))
  {
    var r := AddColumn(ts, table, column, decl);
    if r.Ok? && r.value.0 {
      var i := FindTable(ts, table).value;
      var ts' := r.value.1;
      FindTableNames(ts, ts', table);
      assert ts'[i].columns[|ts[i].columns|].name == column;
      assert ToLower(column) == ToLower(column);
    }
  }

  /** The lookup depends only on the table names. */
  lemma {:induction false} FindTableNames(ts: seq<Table>, us: seq<Table>, name: string)
    requires |ts| == |us| && forall k :: 0 <= k < |ts| ==> ts[k].name == us[k].name
    ensures FindTable(ts, name) == FindTable(us, name)
  {
    if ts != [] {
      FindTableNames(ts[1..], us[1..], name);
    }
  }

  /** Idempotence: adding a column a second time reports false and changes nothing. */
  lemma AddColumnIdempotent(ts: seq<Table>, table: string, column: string, decl: string)
    requires AddColumn(ts, table, column, decl).Ok?
    ensures var ts' := AddColumn(ts, table, column, decl).value.1;
      AddColumn(ts', table, column, decl) == Ok((false, ts'))
  {
    AddColumnEffect(ts, table, column, decl);
  }

  /** A run of `add_column_if_missing` calls, stopping at the first error. */
  function RunSteps(ts: seq<Table>, steps: seq<AddStep>): Result<seq<Table>>
    decreases |steps|
  {
    if steps == [] then Ok(ts)
    else match AddColumn(ts, steps[0].table, steps[0].column, steps[0].decl)
      case Err(e) => Err(e)
      case Ok((_, ts')) => RunSteps(ts', steps[1..])
  }

  /** Table `t` has column `c` in the catalogue. */
  predicate Has(ts: seq<Table>, t: string, c: string)
  {
    HasColumn(ts, t, c) == Ok(true)
  }

  /** Growing columns while keeping names keeps every column that was there. */
  lemma GrowKeepsColumns(ts: seq<Table>, us: seq<Table>, t: string, c: string)
    requires |ts| == |us| && forall k :: 0 <= k < |ts| ==> ts[k].name == us[k].name && ts[k].columns <= us[k].columns
    requires Has(ts, t, c)
    ensures Has(us, t, c)
  {
    FindTableNames(ts, us, t);
    var i := FindTable(ts, t).value;
    var j :| 0 <= j < |ts[i].columns| && EqIgnoreAsciiCase(ts[i].columns[j].name, c);
    assert us[i].columns[j] == ts[i].columns[j];
  }

  /** After a successful run every column the steps name exists, and no column was lost. */
  lemma {:induction false} RunStepsComplete(ts: seq<Table>, steps: seq<AddStep>)
    requires RunSteps(ts, steps).Ok?
    ensures var us := RunSteps(ts, steps).value;
      && |us| == |ts|
      && (forall k :: 0 <= k < |ts| ==> us[k].name == ts[k].name && ts[k].columns <= us[k].columns)
      && forall s :: s in steps ==> Has(us, s.table, s.column)
    decreases |steps|
  {
    if steps != [] {
      var s0 := steps[0];
      AddColumnEffect(ts, s0.table, s0.column, s0.decl);
      var ts' := AddColumn(ts, s0.table, s0.column, s0.decl).value.1;
      RunStepsComplete(ts', steps[1..]);
      var us := RunSteps(ts, steps).value;
      GrowKeepsColumns(ts', us, s0.table, s0.column);
      forall k | 0 <= k < |ts| ensures ts[k].columns <= us[k].columns {
        assert ts[k].columns <= ts'[k].columns <= us[k].columns;
      }
      forall s | s in steps ensures Has(us, s.table, s.column) {
        if s != s0 {
          assert s in steps[1..];
        }
      }
    }
  }

  /** When every step's table and column already exist, a run is a no-op. */
  lemma {:induction false} RunStepsNoop(ts: seq<Table>, steps: seq<AddStep>)
    requires forall s :: s in steps ==> Has(ts, s.table, s.column)
    ensures RunSteps(ts, steps) == Ok(ts)
    decreases |steps|
  {
    if steps != [] {
      assert Has(ts, steps[0].table, steps[0].column);
      assert forall s :: s in steps[1..] ==> s in steps;
      RunStepsNoop(ts, steps[1..]);
    }
  }

  /** Running the same steps twice gives the catalogue of running them once. */
  lemma RunStepsIdempotent(ts: seq<Table>, steps: seq<AddStep>)
    requires RunSteps(ts, steps).Ok?
    ensures RunSteps(RunSteps(ts, steps).value, steps) == RunSteps(ts, steps)
  {
    RunStepsComplete(ts, steps);
    RunStepsNoop(RunSteps(ts, steps).value, steps);
  }

  /** The calls made by `migrate_v0_to_v1` as written, in order. */
  const V0ToV1StepsAsWritten: seq<AddStep> := [
    AddStep("providers", "category", "TEXT"),
    AddStep("providers", "created_at", "INTEGER"),
    AddStep("providers", "sort_index", "INTEGER"),
    AddStep("providers", "notes", "TEXT"),
    AddStep("providers", "icon", "TEXT"),
    AddStep("providers", "icon_color", "TEXT"),
    AddStep("providers", "meta", "TEXT NOT NULL DEFAULT '{}'"),
    AddStep("providers", "is_current", "BOOLEAN NOT NULL DEFAULT 0"),
    AddStep("provider_endpoints", "added_at", "INTEGER"),
    AddStep("mcp_servers", "description", "TEXT"),
    AddStep("mcp_servers", "homepage", "TEXT"),
    AddStep("mcp_servers", "docs", "TEXT"),
    AddStep("mcp_servers", "tags", "TEXT NOT NULL DEFAULT '[]'"),
    AddStep("mcp_servers", "enabled_codex", "BOOLEAN NOT NULL DEFAULT 0"),
    AddStep("mcp_servers", "enabled_gemini", "BOOLEAN NOT NULL DEFAULT 0"),
    AddStep("mcp_servers", "enabled_qwen", "BOOLEAN NOT NULL DEFAULT 0"),
    AddStep("prompts", "description", "TEXT"),
    AddStep("prompts", "enabled", "BOOLEAN NOT NULL DEFAULT 1"),
    AddStep("prompts", "created_at", "INTEGER"),
    AddStep("prompts", "updated_at", "INTEGER"),
    AddStep("skills", "installed_at", "INTEGER NOT NULL DEFAULT 0"),
    AddStep("skill_repos", "branch", "TEXT NOT NULL DEFAULT 'main'"),
    AddStep("skill_repos", "enabled", "BOOLEAN NOT NULL DEFAULT 1")
  ]

  /**
   * The v0 to v1 step with the `enabled_claude` flag column that the as-written
   * step omits; the migration engine below runs this one.
   */
  const V0ToV1Steps: seq<AddStep> :=
    V0ToV1StepsAsWritten[..13]
    + [AddStep("mcp_servers", "enabled_claude", "BOOLEAN NOT NULL DEFAULT 0")]
    + V0ToV1StepsAsWritten[13..]

  /** The pre-versioning schema the store had before `user_version` was kept (database/tests.rs). */
  const LegacyTables: seq<Table> := [
    Table("providers", [
      Column("id", "TEXT NOT NULL"), Column("app_type", "TEXT NOT NULL"), Column("name", "TEXT NOT NULL"),
      Column("settings_config", "TEXT NOT NULL")]),
    Table("provider_endpoints", [
      Column("id", "INTEGER PRIMARY KEY AUTOINCREMENT"), Column("provider_id", "TEXT NOT NULL"),
      Column("app_type", "TEXT NOT NULL"), Column("url", "TEXT NOT NULL")]),
    Table("mcp_servers", [
      Column("id", "TEXT PRIMARY KEY"), Column("name", "TEXT NOT NULL"), Column("server_config", "TEXT NOT NULL")]),
    Table("prompts", [
      Column("id", "TEXT NOT NULL"), Column("app_type", "TEXT NOT NULL"), Column("name", "TEXT NOT NULL"),
      Column("content", "TEXT NOT NULL")]),
    Table("skills", [Column("key", "TEXT PRIMARY KEY"), Column("installed", "BOOLEAN NOT NULL DEFAULT 0")]),
    Table("skill_repos", [Column("owner", "TEXT NOT NULL"), Column("name", "TEXT NOT NULL")]),
    Table("settings", [Column("key", "TEXT PRIMARY KEY"), Column("value", "TEXT")])
  ]

  /** The columns of the version 1 `mcp_servers` table. */
  const V1McpColumns: seq<Column> := [
    Column("id", "TEXT PRIMARY KEY"), Column("name", "TEXT NOT NULL"), Column("server_config", "TEXT NOT NULL"),
    Column("description", "TEXT"), Column("homepage", "TEXT"), Column("docs", "TEXT"),
    Column("tags", "TEXT NOT NULL DEFAULT '[]'"), Column("enabled_claude", "BOOLEAN NOT NULL DEFAULT 0"),
    Column("enabled_codex", "BOOLEAN NOT NULL DEFAULT 0"), Column("enabled_gemini", "BOOLEAN NOT NULL DEFAULT 0"),
    Column("enabled_qwen", "BOOLEAN NOT NULL DEFAULT 0")]

  /** The tables `create_tables_on_conn` creates, with their columns. */
  const V1Tables: seq<Table> := [
    Table("providers", [
      Column("id", "TEXT NOT NULL"), Column("app_type", "TEXT NOT NULL"), Column("name", "TEXT NOT NULL"),
      Column("settings_config", "TEXT NOT NULL"), Column("website_url", "TEXT"), Column("category", "TEXT"),
      Column("created_at", "INTEGER"), Column("sort_index", "INTEGER"), Column("notes", "TEXT"),
      Column("icon", "TEXT"), Column("icon_color", "TEXT"), Column("meta", "TEXT NOT NULL DEFAULT '{}'"),
      Column("is_current", "BOOLEAN NOT NULL DEFAULT 0")]),
    Table("provider_endpoints", [
      Column("id", "INTEGER PRIMARY KEY AUTOINCREMENT"), Column("provider_id", "TEXT NOT NULL"),
      Column("app_type", "TEXT NOT NULL"), Column("url", "TEXT NOT NULL"), Column("added_at", "INTEGER")]),
    Table("mcp_servers", V1McpColumns),
    Table("prompts", [
      Column("id", "TEXT NOT NULL"), Column("app_type", "TEXT NOT NULL"), Column("name", "TEXT NOT NULL"),
      Column("content", "TEXT NOT NULL"), Column("description", "TEXT"), Column("enabled", "BOOLEAN NOT NULL DEFAULT 1"),
      Column("created_at", "INTEGER"), Column("updated_at", "INTEGER")]),
    Table("skills", [
      Column("key", "TEXT PRIMARY KEY"), Column("installed", "BOOLEAN NOT NULL DEFAULT 0"),
      Column("installed_at", "INTEGER NOT NULL DEFAULT 0")]),
    Table("skill_repos", [
      Column("owner", "TEXT NOT NULL"), Column("name", "TEXT NOT NULL"),
      Column("branch", "TEXT NOT NULL DEFAULT 'main'"), Column("enabled", "BOOLEAN NOT NULL DEFAULT 1")]),
    Table("settings", [Column("key", "TEXT PRIMARY KEY"), Column("value", "TEXT")])
  ]

  /** Steps whose tables all exist and whose names are valid run without error. */
  lemma {:induction false} RunStepsOk(ts: seq<Table>, steps: seq<AddStep>)
    requires forall s :: s in steps ==>
      ValidateIdentifier(s.table, TableKind).Ok? && ValidateIdentifier(s.column, ColumnKind).Ok? && FindTable(ts, s.table).Some?
    ensures RunSteps(ts, steps).Ok?
    decreases |steps|
  {
    if steps != [] {
      var s0 := steps[0];
      AddColumnEffect(ts, s0.table, s0.column, s0.decl);
      var ts' := AddColumn(ts, s0.table, s0.column, s0.decl).value.1;
      forall s | s in steps[1..] ensures FindTable(ts', s.table).Some? {
        FindTableNames(ts, ts', s.table);
      }
      RunStepsOk(ts', steps[1..]);
    }
  }

  /** A column list gains a match only through the appended column. */
  lemma ColumnInAppend(cols: seq<Column>, col: Column, c: string)
    ensures ColumnIn(cols + [col], c) <==> ColumnIn(cols, c) || EqIgnoreAsciiCase(col.name, c)
  {
    if ColumnIn(cols + [col], c) && !EqIgnoreAsciiCase(col.name, c) {
      var j :| 0 <= j < |cols + [col]| && EqIgnoreAsciiCase((cols + [col])[j].name, c);
      assert j < |cols| && (cols + [col])[j] == cols[j];
    }
    if ColumnIn(cols, c) {
      var j :| 0 <= j < |cols| && EqIgnoreAsciiCase(cols[j].name, c);
      assert (cols + [col])[j] == cols[j];
    }
    if EqIgnoreAsciiCase(col.name, c) {
      assert (cols + [col])[|cols|] == col;
    }
  }

  /** One step that names another column leaves an absent column absent. */
  lemma AddColumnKeepsAbsent(ts: seq<Table>, s: AddStep, t: string, c: string)
    requires AddColumn(ts, s.table, s.column, s.decl).Ok?
    requires !EqIgnoreAsciiCase(s.column, c)
    requires !Has(ts, t, c)
    ensures !Has(AddColumn(ts, s.table, s.column, s.decl).value.1, t, c)
  {
    var ts' := AddColumn(ts, s.table, s.column, s.decl).value.1;
    var k := FindTable(ts, s.table).value;
    if ts' != ts {
      assert ts' == ts[k := Table(ts[k].name, ts[k].columns + [Column(s.column, s.decl)])];
      FindTableNames(ts, ts', t);
      var f := FindTable(ts, t);
      if f.Some? && f.value == k {
        ColumnInAppend(ts[k].columns, Column(s.column, s.decl), c);
      }
    }
  }

  /** A column that no step names stays absent. */
  lemma {:induction false} RunStepsKeepsAbsent(ts: seq<Table>, steps: seq<AddStep>, t: string, c: string)
    requires RunSteps(ts, steps).Ok?
    requires NoStepNames(steps, c)
    requires !Has(ts, t, c)
    ensures !Has(RunSteps(ts, steps).value, t, c)
    decreases |steps|
  {
    if steps != [] {
      var s0 := steps[0];
      AddColumnKeepsAbsent(ts, s0, t, c);
      var ts' := AddColumn(ts, s0.table, s0.column, s0.decl).value.1;
      assert forall s :: s in steps[1..] ==> s in steps;
      RunStepsKeepsAbsent(ts', steps[1..], t, c);
    }
  }

  /** Strings that differ at one position after lowering differ without regard to case. */
  lemma DiffersAt(a: string, b: string, i: nat)
    requires i < |a| && i < |b| && LowerChar(a[i]) != LowerChar(b[i])
    ensures !EqIgnoreAsciiCase(a, b)
  {
    assert ToLower(a)[i] != ToLower(b)[i];
  }

  /** No step of `steps` names column `c`. */
  predicate NoStepNames(steps: seq<AddStep>, c: string)
  {
    forall s :: s in steps ==> !EqIgnoreAsciiCase(s.column, c)
  }

  /** Every step's column has another length than `n`, or is `g`. */
  predicate AllOtherLength(xs: seq<AddStep>, n: nat, g: string)
  {
    forall s :: s in xs ==> OtherLength(s, n, g)
  }

  /** `OtherLength(s, n, g)`: the step's column has another length than `n`, or is `g`. */
  predicate OtherLength(s: AddStep, n: nat, g: string)
  {
    |s.column| != n || s.column == g
  }

  /** What holds on the three slices cut at `m` and `n` holds on the whole. */
  lemma OtherLengthSlices(xs: seq<AddStep>, m: nat, n: nat, len: nat, g: string)
    requires m <= n <= |xs|
    requires forall s :: s in xs[..m] ==> OtherLength(s, len, g)
    requires forall s :: s in xs[m..n] ==> OtherLength(s, len, g)
    requires forall s :: s in xs[n..] ==> OtherLength(s, len, g)
    ensures AllOtherLength(xs, len, g)
  {
    forall x | x in xs ensures OtherLength(x, len, g) {
      var i :| 0 <= i < |xs| && xs[i] == x;
      if i < m { assert xs[..m][i] == x; }
      else if i < n { assert xs[m..n][i - m] == x; }
      else { assert xs[n..][i - n] == x; }
    }
  }

  /** A column of another length, or equal to `g` that differs from `c`, differs from `c`. */
  lemma OtherLengthDiffers(xs: seq<AddStep>, c: string, g: string)
    requires AllOtherLength(xs, |c|, g)
    requires !EqIgnoreAsciiCase(g, c)
    ensures NoStepNames(xs, c)
  {
  }

  lemma ColumnLengthsHead()
    ensures forall s :: s in V0ToV1StepsAsWritten[..8] ==> OtherLength(s, 14, "enabled_gemini")
  {
  }

  lemma ColumnLengthsMiddle()
    ensures forall s :: s in V0ToV1StepsAsWritten[8..16] ==> OtherLength(s, 14, "enabled_gemini")
  {
  }

  lemma ColumnLengthsTail()
    ensures forall s :: s in V0ToV1StepsAsWritten[16..] ==> OtherLength(s, 14, "enabled_gemini")
  {
  }

  lemma ColumnLengths()
    ensures AllOtherLength(V0ToV1StepsAsWritten, 14, "enabled_gemini")
  {
    ColumnLengthsHead();
    ColumnLengthsMiddle();
    ColumnLengthsTail();
    OtherLengthSlices(V0ToV1StepsAsWritten, 8, 16, 14, "enabled_gemini");
  }

  /** Only `enabled_gemini` among the as-written column names has the length of `enabled_claude`. */
  lemma NoStepNamesClaudeFlag()
    ensures NoStepNames(V0ToV1StepsAsWritten, "enabled_claude")
  {
    ColumnLengths();
    DiffersAt("enabled_gemini", "enabled_claude", 8);
    OtherLengthDiffers(V0ToV1StepsAsWritten, "enabled_claude", "enabled_gemini");
  }

  /**
   * As written, the v0 to v1 migration never adds `enabled_claude`: from any
   * catalogue whose `mcp_servers` lacks it (the pre-versioning schema does, see
   * `LegacyMcpLacksClaudeFlag`) a successful migration ends without it.
   */
  lemma MigrationAsWrittenLacksClaudeFlag(ts: seq<Table>)
    requires RunSteps(ts, V0ToV1StepsAsWritten).Ok?
    requires !Has(ts, "mcp_servers", "enabled_claude")
    ensures !Has(RunSteps(ts, V0ToV1StepsAsWritten).value, "mcp_servers", "enabled_claude")
  {
    NoStepNamesClaudeFlag();
    RunStepsKeepsAbsent(ts, V0ToV1StepsAsWritten, "mcp_servers", "enabled_claude");
  }

  /** The corrected migration always ends with the `enabled_claude` column. */
  lemma MigrationAddsClaudeFlag(ts: seq<Table>)
    requires RunSteps(ts, V0ToV1Steps).Ok?
    ensures Has(RunSteps(ts, V0ToV1Steps).value, "mcp_servers", "enabled_claude")
  {
    RunStepsComplete(ts, V0ToV1Steps);
    assert V0ToV1Steps[13] == AddStep("mcp_servers", "enabled_claude", "BOOLEAN NOT NULL DEFAULT 0");
  }

  /** The pre-versioning `mcp_servers` table has no `enabled_claude` column. */
  lemma LegacyMcpLacksClaudeFlag()
    ensures LegacyTables[2].name == "mcp_servers" && !ColumnIn(LegacyTables[2].columns, "enabled_claude")
  {
    var cols := LegacyTables[2].columns;
    assert |cols| == 3 && |cols[0].name| == 2 && |cols[1].name| == 4 && |cols[2].name| == 13;
    NoColumnOfLength(cols, "enabled_claude");
  }

  /** The `mcp_servers` table a version 1 store is created with has `enabled_claude`. */
  lemma V1McpHasClaudeFlag()
    ensures V1Tables[2].name == "mcp_servers" && ColumnIn(V1Tables[2].columns, "enabled_claude")
  {
    ExactColumn(V1Tables[2].columns, 7, "enabled_claude");
  }

  /** The Qwen flag column has the Grok flag's length but another name. */
  lemma QwenFlagIsNotGrok()
    ensures !EqIgnoreAsciiCase("enabled_qwen", "enabled_grok")
  {
    DiffersAt("enabled_qwen", "enabled_grok", 8);
  }

  /** The version 1 `mcp_servers` columns: only the last, `enabled_qwen`, has twelve characters. */
  lemma V1McpNameLengths()
    ensures |V1McpColumns| == 11 && V1McpColumns[10].name == "enabled_qwen"
    ensures forall j :: 0 <= j < 10 ==> |V1McpColumns[j].name| != 12
  {
    var cols := V1McpColumns;
    forall j | 0 <= j < 10 ensures |cols[j].name| != 12 {
      if j < 5 {
        assert |cols[0].name| == 2 && |cols[1].name| == 4 && |cols[2].name| == 13 && |cols[3].name| == 11;
        assert |cols[4].name| == 8;
      } else {
        assert |cols[5].name| == 4 && |cols[6].name| == 4 && |cols[7].name| == 14;
        assert |cols[8].name| == 13 && |cols[9].name| == 14;
      }
    }
  }

  /** No column of the version 1 `mcp_servers` table is `enabled_grok`. */
  lemma V1McpColumnsLackGrokFlag()
    ensures !ColumnIn(V1McpColumns, "enabled_grok")
  {
    var cols := V1McpColumns;
    V1McpNameLengths();
    QwenFlagIsNotGrok();
    forall j | 0 <= j < |cols| ensures !EqIgnoreAsciiCase(cols[j].name, "enabled_grok") {
      if j < 10 {
        LengthsDiffer(cols[j].name, "enabled_grok");
      }
    }
  }

  /** The third table a version 1 store is created with is `mcp_servers`. */
  lemma V1McpTable()
    ensures |V1Tables| == 7 && V1Tables[2] == Table("mcp_servers", V1McpColumns)
  {
  }

  /** Names of different lengths do not match. */
  lemma LengthsDiffer(a: string, b: string)
    requires |a| != |b|
    ensures !EqIgnoreAsciiCase(a, b)
  {
    assert |ToLower(a)| != |ToLower(b)|;
  }

  /** Every column a statement names exists in the table, or SQLite rejects the statement. */
  predicate ColumnsExist(columns: seq<string>, t: Table)
  {
    forall i :: 0 <= i < |columns| ==> ColumnIn(t.columns, columns[i])
  }

  /** A statement naming one missing column is rejected, whatever the others. */
  lemma MissingColumnRejects(columns: seq<string>, t: Table, i: nat)
    requires i < |columns| && !ColumnIn(t.columns, columns[i])
    ensures !ColumnsExist(columns, t)
  {
  }

  /** No column whose name has another length matches. */
  lemma NoColumnOfLength(cols: seq<Column>, c: string)
    requires forall j :: 0 <= j < |cols| ==> |cols[j].name| != |c|
    ensures !ColumnIn(cols, c)
  {
    forall j | 0 <= j < |cols| ensures !EqIgnoreAsciiCase(cols[j].name, c) {
      assert |ToLower(cols[j].name)| != |ToLower(c)|;
    }
  }

  /** A column named exactly matches. */
  lemma ExactColumn(cols: seq<Column>, j: nat, c: string)
    requires j < |cols| && cols[j].name == c
    ensures ColumnIn(cols, c)
  {
    assert EqIgnoreAsciiCase(cols[j].name, c);
  }

  /** The refusal of `set_user_version` for a negative version. */
  const NegativeVersionMessage := "user_version 不能为负数"

  /** The refusal of a store whose `user_version` is newer than `SchemaVersion`. */
  function TooNewMessage(version: int): string
  {
    "数据库版本过新（" + IntToString(version) + "），当前应用仅支持 " + IntToString(SchemaVersion) + "，请升级应用后再尝试。"
  }

  /** The refusal of a `user_version` that has no migration step. */
  function UnknownVersionMessage(version: int): string
  {
    "未知的数据库版本 " + IntToString(version) + "，无法迁移到 " + IntToString(SchemaVersion)
  }

  /** A connection: the `user_version` pragma and the table catalogue. */
  class Db {
    var version: int
    var tables: seq<Table>

    constructor (version: int, tables: seq<Table>)
      ensures this.version == version && this.tables == tables
    {
      this.version := version;
      this.tables := tables;
    }

    /** `set_user_version`: negative versions are refused and nothing is written. */
    method SetUserVersion(v: int) returns (r: Result<()>)
      modifies this`version
      ensures r.Ok? <==> v >= 0
      ensures r.Err? ==> r.error == Database(NegativeVersionMessage)
      ensures version == if v >= 0 then v else old(version)
    {
      if v < 0 {
        return Err(Database(NegativeVersionMessage));
      }
      version := v;
      return Ok(());
    }

    /** `add_column_if_missing` */
    method AddColumnIfMissing(table: string, column: string, decl: string) returns (r: Result<bool>)
      modifies this`tables
      ensures AddColumn(old(tables), table, column, decl).Ok? <==> r.Ok?
      ensures r.Ok? ==> AddColumn(old(tables), table, column, decl) == Ok((r.value, tables))
      ensures r.Err? ==> tables == old(tables) && AddColumn(old(tables), table, column, decl) == Err(r.error)
    {
      var v := ValidateIdentifier(table, TableKind);
      if v.Err? { return Err(v.error); }
      v := ValidateIdentifier(column, ColumnKind);
      if v.Err? { return Err(v.error); }
      var exists_ := TableExists(tables, table);
      if !exists_.value {
        return Err(Database(MissingTableMessage(table, column)));
      }
      var has := HasColumn(tables, table, column);
      if has.value {
        return Ok(false);
      }
      var i := FindTable(tables, table).value;
      tables := tables[i := Table(tables[i].name, tables[i].columns + [Column(column, decl)])];
      return Ok(true);
    }

    /** `migrate_v0_to_v1`: the calls in order; the first error stops the run. */
    method MigrateV0ToV1() returns (r: Result<()>)
      modifies this`tables
      ensures r.Ok? <==> RunSteps(old(tables), V0ToV1Steps).Ok?
      ensures r.Ok? ==> tables == RunSteps(old(tables), V0ToV1Steps).value
    {
      var k := 0;
      while k < |V0ToV1Steps|
        invariant 0 <= k <= |V0ToV1Steps|
        invariant RunSteps(old(tables), V0ToV1Steps) == RunSteps(tables, V0ToV1Steps[k..])
      {
        var s := V0ToV1Steps[k];
        assert V0ToV1Steps[k..][0] == s && V0ToV1Steps[k..][1..] == V0ToV1Steps[k + 1..];
        var added := AddColumnIfMissing(s.table, s.column, s.decl);
        if added.Err? {
          return Err(added.error);
        }
        k := k + 1;
      }
      return Ok(());
    }

    /**
     * `apply_schema_migrations_on_conn`: inside a savepoint, step the version up
     * to `SchemaVersion`; a newer version, a version with no step, or a failing
     * step rolls back to the savepoint and reports the error.
     */
    method ApplySchemaMigrations() returns (r: Result<()>)
      modifies this
      ensures r.Err? ==> version == old(version) && tables == old(tables)
      ensures old(version) > SchemaVersion ==> r == Err(Database(TooNewMessage(old(version))))
      ensures old(version) < 0 ==> r == Err(Database(UnknownVersionMessage(old(version))))
      ensures old(version) == SchemaVersion ==> r.Ok? && tables == old(tables)
      ensures old(version) == 0 ==>
        (r.Ok? <==> RunSteps(old(tables), V0ToV1Steps).Ok?)
        && (r.Ok? ==> version == SchemaVersion && tables == RunSteps(old(tables), V0ToV1Steps).value)
    {
      var savedVersion, savedTables := version, tables;
      if version > SchemaVersion {
        return Err(Database(TooNewMessage(version)));
      }
      r := Ok(());
      var v := version;
      while v < SchemaVersion
        invariant v == version
        invariant r.Ok?
        invariant savedVersion == old(version) && savedTables == old(tables)
        invariant v == savedVersion ==> tables == savedTables
        invariant v != savedVersion ==>
          (savedVersion == 0 && v == SchemaVersion && RunSteps(savedTables, V0ToV1Steps) == Ok(tables))
        decreases SchemaVersion - v
      {
        if v == 0 {
          var m := MigrateV0ToV1();
          if m.Err? {
            r := m;
            break;
          }
          var s := SetUserVersion(1);
        } else {
          r := Err(Database(UnknownVersionMessage(v)));
          break;
        }
        v := version;
      }
      if r.Err? {
        version, tables := savedVersion, savedTables;
      }
    }
  }
}
