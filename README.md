# cc-switch core, modelled in Dafny

cc-switch keeps the configuration of several command-line coding assistants
(Claude Code, Codex, Gemini CLI, Grok CLI and Qwen Code) in one SQLite store and
writes the active choice into each assistant's own "live" configuration files.
This project models the core of that broker and proves properties of the model:

- the store: the V1 schema, its creation and column-adding migration, identifier
  validation, and one `Database` class holding the provider, endpoint, MCP server,
  prompt, skill and settings tables (`store.dfy`, `schema.dfy`, `records.dfy`);
- the one-shot migration from the legacy `config.json` into the store
  (`migration.dfy`), and SQL backups: the literal encoding, the dump text, the
  statement sanitiser, the import and the pruning of old backup files
  (`backup.dfy`, `files.dfy`);
- MCP servers: the per-assistant live files (Claude and Gemini JSON, Codex TOML,
  Grok JSON), the Codex table converter, the import from each assistant and the
  service that toggles, syncs, upserts and deletes servers (`mcp*.dfy`,
  `codexconvert.dfy`);
- providers: add, update, delete, switch, backfill of the live snapshot, sort
  order, custom endpoints and usage queries (`providers.dfy`,
  `providerservice.dfy`, `providerlive.dfy`, `endpoints.dfy`, `usage.dfy`,
  `claudemodels.dfy`);
- prompts and their live prompt files (`promptservice.dfy`), the config service
  that exports, imports and snapshots (`configservice.dfy`), the application
  settings (`settings.dfy`), the Grok settings file (`grokconfig.dfy`), the Gemini
  proxy switch (`geminiproxy.dfy`), the start-up status cells (`initstatus.dfy`)
  and the version comparison of the updater (`versions.dfy`);
- `ccswitch://` deep links: the URL parser, the provider, MCP and prompt imports
  and their helpers (`deeplink*.dfy`).

Code that works by updating state step by step (the store, the live files, the
settings store, the status cells, backup folders) is modelled with classes whose
methods carry `modifies` clauses and loop invariants and are proved against
specification functions; code built from expressions is modelled with datatypes,
functions and lemmas. Generic helpers live in `text.dfy`, `collections.dfy`,
`sorting.dfy`, `values.dfy` and `wrappers.dfy`.

Where the documentation and the code disagree, the model follows the code:

- `infer_homepage` (src-tauri/src/deeplink/utils.rs:87) is documented to turn
  `api-test.company.com` into `company.com`; the code strips only the leading
  `api.`/`api-` label and yields `test.company.com`, as the tests at
  src-tauri/src/deeplink/tests.rs:101-114 expect; the model does the same.
- `parse_mcp_apps` (src-tauri/src/deeplink/mcp.rs:170-201) accepts `grok` and
  `qwen`, yet the link parser's own check admits only `claude`, `codex` and
  `gemini`; `DeepLinkMcp.LinkAppsAccepted` states the consequence. Its
  `apps.is_empty()` guard cannot be reached after a successful parse.
- The `McpApps` literals built by the Claude and Gemini imports
  (src-tauri/src/mcp/claude.rs:81-86, src-tauri/src/mcp/gemini.rs:77-82) leave
  the Grok flag off; the model does the same.
- Provider validation accepts a Codex provider whose settings hold no `config`,
  while writing its live snapshot requires one
  (`ProviderLive.CodexValidButNotWritable`).

## Model

| member | source | states |
|---|---|---|
| Schema.ValidateIdentifier | src-tauri/src/database/schema.rs:264-274 | an empty identifier is the database error "表名 不能为空" or "列名 不能为空"; any other rejected identifier is "非法表名: …，仅允许字母、数字和下划线" (or 列名) with the identifier itself |
| Schema.ValidIdentifierIsSafe | src-tauri/src/database/schema.rs:264-274 | an identifier is accepted exactly when it is non-empty and made of ASCII letters, digits and `_`; an accepted one holds no quote, `;` or space, so it cannot end the quoted name in the SQL text |
| Schema.FindTable | src-tauri/src/database/schema.rs:276-294 | the index found is the first table whose name equals the given one without regard to ASCII case; none is found only when no table matches |
| Schema.TableExists | src-tauri/src/database/schema.rs:276-294 | an error exactly when the name is not a valid identifier; otherwise true exactly when some table's name matches case-insensitively |
| Schema.HasColumn | src-tauri/src/database/schema.rs:296-320 | an error exactly when the table or column name is invalid; otherwise true exactly when the first table matching the name (ASCII case ignored) has a column matching the column name, so a missing table has no column |
| Schema.AddColumnEffect | src-tauri/src/database/schema.rs:322-345 | `add_column_if_missing` fails exactly on an invalid name or a missing table; on success it reports whether the column was absent, the column exists afterwards, nothing changes when it was present, and otherwise exactly the one matching table gains exactly that column at the end |
| Schema.AddColumnIdempotent | src-tauri/src/database/schema.rs:322-345 | adding the same column a second time reports false and leaves the catalogue as it is |
| Schema.RunStepsComplete | src-tauri/src/database/schema.rs:182-245 | after a successful run of `add_column_if_missing` calls every named column exists and no table lost a column |
| Schema.RunStepsNoop | src-tauri/src/database/schema.rs:182-245 | when every named column already exists, the run changes nothing |
| Schema.RunStepsIdempotent | src-tauri/src/database/schema.rs:182-245 | running the v0 to v1 steps a second time gives the catalogue the first run gave |
| Schema.RunStepsOk | src-tauri/src/database/schema.rs:182-245 | steps whose names are valid and whose tables exist run without error |
| Schema.AddColumnKeepsAbsent | src-tauri/src/database/schema.rs:322-345 | a step naming another column leaves an absent column absent |
| Schema.RunStepsKeepsAbsent | src-tauri/src/database/schema.rs:182-245 | a column that no step names stays absent after the run |
| Schema.NoStepNamesClaudeFlag | src-tauri/src/database/schema.rs:200-225 | none of the columns the written v0 to v1 migration adds is `enabled_claude` |
| Schema.MigrationAsWrittenLacksClaudeFlag | src-tauri/src/database/schema.rs:200-225 | as written, the migration leaves a store whose `mcp_servers` lacks `enabled_claude` without it |
| Schema.MigrationAddsClaudeFlag | src-tauri/src/database/schema.rs:200-225 | with the corrected step list, every successful migration ends with an `enabled_claude` column |
| Schema.LegacyMcpLacksClaudeFlag | src-tauri/src/database/tests.rs:27-31 | the pre-versioning `mcp_servers` table has no `enabled_claude` column |
| Schema.V1McpHasClaudeFlag | src-tauri/src/database/schema.rs:54-69 | a freshly created version 1 `mcp_servers` table has `enabled_claude` |
| Schema.Db.SetUserVersion | src-tauri/src/database/schema.rs:254-262 | a negative version is refused with the database error "user_version 不能为负数" and nothing is written; otherwise the version becomes the given one |
| Schema.Db.AddColumnIfMissing | src-tauri/src/database/schema.rs:322-345 | the catalogue afterwards and the result are those of `AddColumn`, and so is the error (the identifier errors, or "表 … 不存在，无法添加列 …"); on error nothing changes |
| Schema.Db.MigrateV0ToV1 | src-tauri/src/database/schema.rs:182-245 | runs the corrected step list of the Findings row (with `enabled_claude`; the list as written is `Schema.V0ToV1StepsAsWritten`): the calls run in order and the first error stops the run; success leaves the catalogue the step list gives |
| Schema.Db.ApplySchemaMigrations | src-tauri/src/database/schema.rs:134-179 | a version newer than 1 is "数据库版本过新（v），当前应用仅支持 1，请升级应用后再尝试。" and one below 0 is "未知的数据库版本 v，无法迁移到 1", both database errors with the version written out; every error rolls the version and the catalogue back; version 1 is a no-op; from version 0 the v0 to v1 steps run and the version becomes 1 |
| Schema.MissingColumnRejects | src-tauri/src/database/migration.rs:83-107 | a statement that names one column the table lacks is rejected, whatever its other columns |
| LegacyMigration.ProvidersLackPinnedFlag | src-tauri/src/database/test_v1_version.rs:7-33 | the version 1 providers table has no `is_pinned` column |
| LegacyMigration.CorrectedInsertAccepted | src-tauri/src/database/migration.rs:84-87 | the first thirteen columns of the providers INSERT all exist in the version 1 providers table |
| LegacyMigration.AsWrittenInsertRejected | src-tauri/src/database/migration.rs:84-87 | the sixteen-column providers INSERT as written is rejected by a version 1 store |
| LegacyMigration.ProviderRows | src-tauri/src/database/migration.rs:72-107 | one row per provider of every manager, under key (application, map key), and its `is_current` is set exactly when the key is that manager's `current` |
| LegacyMigration.EndpointSets | src-tauri/src/database/migration.rs:80-81 | every provider's endpoint rows are exactly the `custom_endpoints` of its meta, or of the default meta when it has none |
| LegacyMigration.HasProviderRows | src-tauri/src/database/migration.rs:72-76 | the providers step writes a row exactly when some manager holds a provider |
| LegacyMigration.ProviderEndpointsOf | src-tauri/src/database/migration.rs:109-117 | the endpoint rows written for one provider are the entries of its own meta's `custom_endpoints`, under its own (id, application) |
| LegacyMigration.MigratedProviderReadsBack | src-tauri/src/database/migration.rs:76-117 | a migrated provider reads back from the store as the legacy one under its map key; its endpoints read back from the endpoint table; the pinned and duplication flags are at their defaults |
| LegacyMigration.MigratedCurrent | src-tauri/src/database/migration.rs:74-77 | after the migration an application has at most one current provider row, and it is the manager's `current` |
| LegacyMigration.McpRows | src-tauri/src/database/migration.rs:124-153 | one MCP row per entry of the unified map, if there is one; each reads back as the entry with its map key as id and the Claude, Codex, Gemini and Qwen flags it had, while its Grok flag is off, because the INSERT binds only those four flags |
| LegacyMigration.SnippetRows | src-tauri/src/database/migration.rs:218-245 | a `common_config_<app>` row exists for Claude, Codex and Gemini exactly when that snippet is present, holding the snippet |
| LegacyMigration.WithSnippetsUnion | src-tauri/src/database/migration.rs:218-245 | writing the snippets one after another adds exactly the snippet rows |
| LegacyMigration.MigrateProvider | src-tauri/src/database/migration.rs:83-117 | one provider's INSERT OR REPLACE and its endpoint INSERTs add exactly its row and its endpoint rows |
| LegacyMigration.InsertProviderRows | src-tauri/src/database/migration.rs:72-119 | the providers loop adds every provider row and every endpoint row, whatever the order of the keys, and touches no other table |
| LegacyMigration.MigrateProviders | src-tauri/src/database/migration.rs:68-121 | fails exactly when there is a provider and SQLite rejects the INSERT's column list, writing nothing then; otherwise adds exactly the provider rows and endpoint rows |
| LegacyMigration.MigrateMcpServers | src-tauri/src/database/migration.rs:124-153 | adds exactly the MCP rows of `McpRows` (Grok flag off) over the old ones, so the last record per id wins |
| LegacyMigration.MigrateAppPrompts | src-tauri/src/database/migration.rs:160-185 | adds one prompt row per entry of one application's map, keyed by (application, map key) |
| LegacyMigration.MigratePrompts | src-tauri/src/database/migration.rs:156-192 | adds the prompt rows of Claude, Codex and Gemini only |
| LegacyMigration.MigrateSkills | src-tauri/src/database/migration.rs:195-215 | adds every skill state by key and saves every repository in list order, the last one per (owner, name) winning |
| LegacyMigration.MigrateCommonConfig | src-tauri/src/database/migration.rs:218-245 | adds exactly the snippet rows to the settings table |
| LegacyMigration.MigrateFromJsonTx | src-tauri/src/database/migration.rs:45-65 | the five steps fail exactly when the providers step fails; on success the store holds its old rows plus every migrated row, the MCP rows with the Grok flag off |
| LegacyMigration.MigrateFromJsonWith | src-tauri/src/database/migration.rs:12-23 | inside one transaction: an error leaves every table as it was, success commits every migrated row, the MCP rows with the Grok flag off |
| LegacyMigration.MigrateFromJsonAsWritten | src-tauri/src/database/migration.rs:12-23 | as written, any legacy provider makes the migration fail and roll back |
| LegacyMigration.MigrateFromJson | src-tauri/src/database/migration.rs:12-23 | with the corrected INSERT, the migration always commits every migrated row, the MCP rows with the Grok flag off |
| LegacyMigration.MigrateDryRunAsWritten | src-tauri/src/database/migration.rs:28-42 | the dry run on a fresh version 1 store fails exactly when the configuration has a provider |
| LegacyMigration.MigrateDryRun | src-tauri/src/database/migration.rs:28-42 | with the corrected INSERT the dry run accepts every legacy configuration |
| Backup.EscapeRoundTrip | src-tauri/src/database/backup.rs:307-312 | doubling every `'` in a text is undone by reading the quoted literal back |
| Backup.HexRoundTrip | src-tauri/src/database/backup.rs:313-321 | two upper-case hex digits per byte read back as the same bytes |
| Backup.FormatBlob | src-tauri/src/database/backup.rs:313-321 | the blob loop writes `X'`, the hex of every byte in order, then `'` |
| Backup.FormatSqlValue | src-tauri/src/database/backup.rs:302-323 | the literal of `SqlLiteral`: `NULL`, the integer's digits, the float's text, the quoted text, or the hex blob; text that is not UTF-8 is the database error "文本字段不是有效的 UTF-8: " followed by the decoder's reason |
| Backup.LiteralRoundTrip | src-tauri/src/database/backup.rs:302-323 | a literal fails exactly for text that is not UTF-8, with the database error "文本字段不是有效的 UTF-8: " and the decoder's reason, and every NULL, integer, text or blob literal reads back as the same value |
| Backup.SanitizeImportSql | src-tauri/src/database/backup.rs:97-116 | the loop's output is the kept, trimmed `;`-separated statements, each followed by `;` and a newline |
| Backup.KeptClean | src-tauri/src/database/backup.rs:97-116 | every emitted statement is non-empty, trimmed, free of `;` and of `sqlite_sequence` in any case, and every piece that passes the filter is emitted |
| Backup.KeptOfTerminated | src-tauri/src/database/backup.rs:97-116 | splitting the emitted script at `;` and filtering again gives back exactly the emitted statements |
| Backup.SanitizeIdempotent | src-tauri/src/database/backup.rs:97-116 | sanitising a sanitised script changes nothing |
| Backup.ValidateBasicState | src-tauri/src/database/backup.rs:183-197 | the import is refused exactly when the store has neither a provider nor an MCP server, with the configuration error "导入的 SQL 未包含有效的供应商或 MCP 数据" |
| Backup.QuotedAll | src-tauri/src/database/backup.rs:269-273 | every column name is put between double quotes, in order |
| Backup.Literals | src-tauri/src/database/backup.rs:261-267 | a row's literals, one per value, or the error of a value |
| Backup.DumpFrame | src-tauri/src/database/backup.rs:207-212 | a successful dump starts with the header (timestamp, `user_version`, `PRAGMA foreign_keys=OFF`, `PRAGMA user_version`, `BEGIN TRANSACTION`) and ends with `COMMIT;` and `PRAGMA foreign_keys=ON;` |
| Backup.LiteralsErr | src-tauri/src/database/backup.rs:261-267 | a row fails exactly when one of its values is text that is not UTF-8 |
| Backup.RowsTextErr | src-tauri/src/database/backup.rs:260-278 | a table's rows fail to dump exactly when one of its values is text that is not UTF-8 |
| Backup.FormatRow | src-tauri/src/database/backup.rs:261-267 | the value loop returns the row's literals, stopping at the first failing value |
| Backup.LiteralsPrefixErr | src-tauri/src/database/backup.rs:261-267 | once a value has failed, the rest of the row does not change the error |
| Backup.RowsPrefixErr | src-tauri/src/database/backup.rs:260-278 | once a row has failed, the later rows do not change the error |
| Backup.DataPrefixErr | src-tauri/src/database/backup.rs:247-279 | once a table has failed, the later tables do not change the error |
| Backup.DumpRows | src-tauri/src/database/backup.rs:260-278 | the row loop writes one INSERT with the quoted columns and the literals per row, in order |
| Backup.DumpSql | src-tauri/src/database/backup.rs:200-283 | the dump is the header (the source's comment lines, timestamp and `user_version`) with `user_version` (0 when it cannot be read), the SQL of the dumpable objects ordered tables first and then by name, the rows of each dumped table, and the footer |
| Backup.DumpSchema | src-tauri/src/database/backup.rs:224-244 | the schema loop writes each object's SQL and `;`, skipping `sqlite_*` names, and collects the tables in order |
| Backup.DumpData | src-tauri/src/database/backup.rs:246-279 | the data loop skips tables without columns, writes each table's rows in turn, and stops at a value that cannot be written |
| Backup.BackupDatabaseFile | src-tauri/src/database/backup.rs:119-180 | without a store file nothing is written; otherwise a copy of every table is written as `db_backup_<timestamp>.db` and, when more than `retain` `.db` files exist, exactly that many of the oldest by modification time are deleted, so that the folder is pruned to the `retain` newest |
| Backup.BackupIdStem | src-tauri/src/database/backup.rs:119-148 | a backup's file stem is its id |
| Backup.ImportSql | src-tauri/src/database/backup.rs:30-77 | a missing source fails with the source's invalid-input message before anything else, and an unreadable one fails too, with nothing changed; otherwise the store is first backed up (the backup written and the folder pruned to the `retain` newest, whatever follows), then the sanitised script runs into a scratch store, which is prepared and validated; a refused script is the source's SQL-import error; the store takes the scratch store's tables exactly when all three succeed, and is unchanged otherwise; the result is the backup's id |
| Files.Extension | src-tauri/src/database/backup.rs:155-161 | the extension is the text after the last `.`, holds no `.`, and something comes before that `.` |
| Files.FileStem | src-tauri/src/database/backup.rs:119-148 | the stem and the extension, joined by `.`, give back the name; a name without extension is its own stem |
| Files.ExtensionExamples | src-tauri/src/database/backup.rs:155-161 | `.db` has no extension, while `db_backup_1.db` has `db` and `backup_1.json` has `json` |
| Files.SortedPrefixOldest | src-tauri/src/database/backup.rs:170-178 | in a list sorted by modification time, the first `count` names are no newer than one another in order, nor than any later name |
| Files.PrunedByRemoving | src-tauri/src/database/backup.rs:154-178 | deleting, of the `.db` files, as many of the oldest as exceed `retain` leaves the `retain` newest and every other file as it was |
| Files.Folder.Write | src-tauri/src/database/backup.rs:119-148 | the file now holds the content, stamped with the write time |
| Files.Folder.RemoveAll | src-tauri/src/database/backup.rs:174-178 | each named file is deleted and no other |
| Files.Folder.RemoveOldest | src-tauri/src/database/backup.rs:151-180 | with at most `retain` files of the extension nothing is deleted; otherwise exactly the surplus is deleted, each once, all of that extension, oldest first, and none newer than a file that is kept; nothing else changes |
| Store.RowOf | src-tauri/src/database/dao/providers.rs:135-138 | the provider row stores the settings and the meta with its endpoints taken out, and the given current flag |
| Store.NewEndpointRows | src-tauri/src/database/dao/providers.rs:208-218 | one endpoint row per URL of the new provider's meta, with that entry's `added_at` |
| Store.EndpointRowsFor | src-tauri/src/database/migration.rs:109-117 | one endpoint row per entry of the map, for the given provider |
| Store.RowsOf | src-tauri/src/database/dao/providers.rs:68-70 | exactly the endpoint rows of the given provider |
| Store.WithoutEndpoint | src-tauri/src/database/dao/providers.rs:276-289 | exactly the rows that do not match the provider, application and URL all three |
| Store.LatestExists | src-tauri/src/database/dao/providers.rs:89-92 | every URL among the rows has a latest `added_at` in query order |
| Store.LatestUnique | src-tauri/src/database/dao/providers.rs:89-92 | that latest time is unique |
| Store.LatestStep | src-tauri/src/database/dao/providers.rs:89-92 | a row that comes no earlier than any row seen so far becomes the latest for its URL |
| Store.LatestAll | src-tauri/src/database/dao/providers.rs:89-92 | once the loop has seen every row, its map is the one the endpoint read defines |
| Store.ReadProvider | src-tauri/src/database/dao/providers.rs:32-98 | a provider read from its row has its map key as id and the endpoints from the endpoint table in its meta; an unparsable settings column reads as null and an unparsable meta as the default meta |
| Collections.FindFirst | src-tauri/src/provider.rs:107-109 | an entry found by id is in the list and has that id; none is found only when no entry has it (the provider lookup here and the MCP server lookup of src-tauri/src/services/mcp.rs:30 both use it) |
| Store.ReadMcp | src-tauri/src/database/dao/mcp.rs:22-57 | a server read from its row has its key as id and the row's flags; an unparsable config reads as null and unparsable tags as empty |
| Store.McpRoundTrip | src-tauri/src/database/dao/mcp.rs:13-94 | a saved MCP server reads back as itself |
| Schema.V1McpColumnsLackGrokFlag | src-tauri/src/database/schema.rs:56-68 | no column of the version 1 `mcp_servers` table matches `enabled_grok`, in any case |
| Store.V1McpLacksGrokFlag | src-tauri/src/database/schema.rs:56-68 | the `mcp_servers` table a version 1 store is created with has no `enabled_grok` column |
| Store.McpDaoRejectedAsWritten | src-tauri/src/database/dao/mcp.rs:13-94 | as written, the SELECT of `get_all_mcp_servers` and the INSERT OR REPLACE of `save_mcp_server` name `enabled_grok`, so a version 1 store rejects both |
| Store.McpTableHasDaoColumns | src-tauri/src/database/dao/mcp.rs:13-94 | the table with the Grok flag has every column both statements name |
| Store.McpDaoAcceptedCorrected | src-tauri/src/database/dao/mcp.rs:13-94 | the corrected `mcp_servers` table is the version 1 table with `enabled_grok BOOLEAN NOT NULL DEFAULT 0` appended, and it accepts both statements |
| Store.Reread | src-tauri/src/database/dao/providers.rs:72-85 | the same URLs, each with its `added_at` and no `last_used` |
| Store.NewProviderRoundTrip | src-tauri/src/database/dao/providers.rs:14-221 | a newly saved provider reads back as itself; its endpoints come back re-keyed by URL and never used, and its pinned and duplication flags at their defaults |
| Store.EndpointRowsRoundTrip | src-tauri/src/database/dao/providers.rs:68-92 | endpoint rows written from a map read back as that map, re-keyed by URL and never used |
| Store.Database.constructor | src-tauri/src/database/schema.rs:17-125 | a new store has every table, all empty |
| Store.Database.Contents | src-tauri/src/database/backup.rs:80-94 | the snapshot holds every table's rows |
| Store.Database.Overwrite | src-tauri/src/database/backup.rs:30-77 | after the page-by-page copy every table holds the given rows |
| Store.Database.SetSetting | src-tauri/src/database/migration.rs:222-226 | the settings row for the key becomes the value, and no other table changes |
| Store.Database.AppIds | src-tauri/src/database/dao/providers.rs:20-22 | exactly the ids stored for the application |
| Store.Database.CurrentIds | src-tauri/src/database/dao/providers.rs:105-122 | exactly the ids of the application's rows flagged current |
| Store.Database.ReadEndpoints | src-tauri/src/database/dao/providers.rs:68-92 | the endpoint loop builds the map the endpoint read defines: per URL, the latest row in `added_at, url` order |
| Store.Database.GetAllProviders | src-tauri/src/database/dao/providers.rs:14-102 | every stored provider of the application exactly once, each read from its row and endpoints, ordered by `sort_index` (missing as 999999), `created_at`, `id` |
| Store.Database.GetCurrentProvider | src-tauri/src/database/dao/providers.rs:105-122 | some row of the application flagged current; none exactly when no row is flagged |
| Store.Database.SaveProvider | src-tauri/src/database/dao/providers.rs:128-221 | an existing row is updated in place keeping its current flag and its endpoint rows; a new one is inserted not current, with one endpoint row per meta endpoint; no meta blob holds endpoints afterwards |
| Store.Database.InsertOrReplaceProvider | src-tauri/src/database/dao/providers.rs:186-205 | the row under (application, id) becomes the given one |
| Store.Database.InsertEndpoints | src-tauri/src/database/dao/providers.rs:208-218 | one endpoint row per entry is added for an existing provider |
| Store.Database.SetCurrentProvider | src-tauri/src/database/dao/providers.rs:235-257 | in the application, exactly the row with the id is flagged current; other applications' rows and the endpoints are untouched |
| Store.Database.DeleteProvider | src-tauri/src/database/dao/providers.rs:224-232 | the row goes, and its endpoint rows with it by the cascade |
| Store.Database.AddCustomEndpoint | src-tauri/src/database/dao/providers.rs:260-273 | one more endpoint row stamped with the time; for a provider not stored, a database error and nothing changes |
| Store.Database.RemoveCustomEndpoint | src-tauri/src/database/dao/providers.rs:276-289 | every row matching provider, application and URL goes |
| Store.Database.GetAllMcpServers | src-tauri/src/database/dao/mcp.rs:13-67 | the corrected read of Findings row 6, over a table with `enabled_grok`: every stored server exactly once, each read from its row, ordered by `name, id` |
| Store.Database.SaveMcpServer | src-tauri/src/database/dao/mcp.rs:70-94 | the corrected write of Findings row 6, over a table with `enabled_grok`: INSERT OR REPLACE, afterwards the id reads back as exactly the given server |
| Store.Database.DeleteMcpServer | src-tauri/src/database/dao/mcp.rs:97-102 | the row with the id goes |
| Store.Database.GetSkills | src-tauri/src/database/dao/skills.rs:13-44 | every skill state exactly once, in key order |
| Store.Database.UpdateSkillState | src-tauri/src/database/dao/skills.rs:47-55 | the state under the key becomes the given one |
| Store.Database.GetSkillRepos | src-tauri/src/database/dao/skills.rs:58-82 | every repository exactly once, ordered by `owner, name` |
| Store.Database.SaveSkillRepo | src-tauri/src/database/dao/skills.rs:85-92 | the repository under (owner, name) becomes the given one |
| Store.Database.DeleteSkillRepo | src-tauri/src/database/dao/skills.rs:95-103 | the repository under (owner, name) goes |
| Store.Database.InitDefaultSkillRepos | src-tauri/src/database/dao/skills.rs:106-124 | nothing happens when any repository exists; otherwise every default is saved in turn and their number is returned |
| Store.Database.PromptsOf | src-tauri/src/services/prompt.rs:21-26 | the stored prompts of one application, keyed by id |
| Store.Database.GetPrompts | src-tauri/src/services/prompt.rs:21-26 | the prompts of one application, each under its own id |
| Store.Database.SavePrompt | src-tauri/src/database/migration.rs:168-184 | INSERT OR REPLACE of the prompt under (application, id) |
| Store.Database.SavePrompts | src-tauri/src/database/migration.rs:160-185 | each entry saved in turn under its map key |
| Store.Database.DeletePrompt | src-tauri/src/services/prompt.rs:48-59 | the row under (application, id) goes |
| Store.AppPrompts | src-tauri/src/database/schema.rs:75-90 | one prompt per row of the application, under its id column |
| Store.PromptRows | src-tauri/src/database/migration.rs:160-185 | one row per entry, each record taking its map key as id |
| Store.AppPromptsSaved | src-tauri/src/services/prompt.rs:28-46 | saving a prompt replaces that entry of its application and changes no other application's prompts |
| Store.AppPromptsDeleted | src-tauri/src/services/prompt.rs:48-59 | deleting a row removes that entry of its application and changes no other application's prompts |
| Store.AppPromptsOverwritten | src-tauri/src/services/prompt.rs:61-132 | writing a map of prompts over an application's rows adds that map to its prompts and changes no other application's |
| Store.SaveReposHoldsLast | src-tauri/src/database/dao/skills.rs:106-124 | after saving a list of repositories, each holds the last entry saved under its (owner, name) |
| Records.McpApps.Set | src-tauri/src/services/mcp.rs:44-65 | the one application's flag takes the value and every other flag stays |
| Records.McpApps.Or | src-tauri/src/deeplink/mcp.rs:99-131 | each flag is set exactly when it was set in either record |
| Records.McpApps.EnabledApps | src-tauri/src/services/mcp.rs:68-74 | exactly the enabled applications, each once |
| Records.OnlyApp | src-tauri/src/mcp/claude.rs:81-86 | exactly the one application is enabled |
| Records.Imported | src-tauri/src/mcp/claude.rs:74-92 | a server imported under a new id is named after it, holds the spec, is enabled for the importing application only, and has no metadata |
| CodexConvert.FloatToJson | src-tauri/src/mcp/codex.rs:157 | a non-finite float becomes null and a finite one stays itself |
| CodexConvert.ItemToToml | src-tauri/src/mcp/codex.rs:464-488 | an array item converts exactly when it is a string, an `i64`, a float or a boolean |
| CodexConvert.ConvertItems | src-tauri/src/mcp/codex.rs:464-489 | every item of an array that converts, in order |
| CodexConvert.JsonToToml | src-tauri/src/mcp/codex.rs:440-527 | no TOML form exactly for null, an empty array, an array with an item that does not convert, an empty object, or an object with a value that is not a string |
| CodexConvert.JsonValueToTomlItem | src-tauri/src/mcp/codex.rs:440-527 | the array and object loops, breaking at the first bad item, give the value `JsonToToml` defines |
| CodexConvert.JsonStrings | src-tauri/src/mcp/codex.rs:585 | keeps only the string items of an array, in order |
| CodexConvert.ExportCore | src-tauri/src/mcp/codex.rs:578-628 | the typed part always writes `type`, and writes only the type's own core fields |
| CodexConvert.ExportStdioCore | src-tauri/src/mcp/codex.rs:579-610 | a stdio server's typed fields: `type` and core stdio fields only |
| CodexConvert.ExportHttpCore | src-tauri/src/mcp/codex.rs:611-626 | an http or sse server's typed fields: `type` and core http fields only |
| CodexConvert.ExportExtra | src-tauri/src/mcp/codex.rs:630-651 | the generic pass writes exactly the fields outside the type's core fields that have a TOML form, each converted |
| CodexConvert.JsonServerToTomlTable | src-tauri/src/mcp/codex.rs:535-653 | the typed fields, then the loop over the remaining fields, give the table `ServerTable` defines |
| CodexConvert.ExportHttpHeaders | src-tauri/src/mcp/codex.rs:611-626 | for http and sse, the string entries of a JSON `headers` object become the `http_headers` table |
| CodexConvert.ExportHeadersTwice | src-tauri/src/mcp/codex.rs:535-653 | for http and sse, a `headers` object of strings is written twice: as `http_headers` and as an inline `headers` table |
| CodexConvert.ExportExtraHeaders | src-tauri/src/mcp/codex.rs:630-651 | the generic pass writes `headers`, which is not a core field, as an inline table, and never writes `http_headers` |
| CodexConvert.ObjectToToml | src-tauri/src/mcp/codex.rs:499-520 | a non-empty object of strings becomes the table of those strings |
| CodexConvert.TomlItemToJson | src-tauri/src/mcp/codex.rs:163-169 | an array item is kept exactly when it is a string, an integer, a float or a boolean |
| CodexConvert.TomlItems | src-tauri/src/mcp/codex.rs:161-170 | keeps at most the items it was given |
| CodexConvert.TomlStrings | src-tauri/src/mcp/codex.rs:91-95 | keeps at most the items it was given, the strings in order |
| CodexConvert.TomlToJson | src-tauri/src/mcp/codex.rs:154-197 | a datetime is dropped; an array is kept exactly when some scalar item remains; a table is kept exactly when some string value remains |
| CodexConvert.ItemsRoundTrip | src-tauri/src/mcp/codex.rs:161-170 | array items written by the export read back as the same items when their numbers are exact |
| CodexConvert.ValueRoundTrip | src-tauri/src/mcp/codex.rs:440-527 | a value the export writes reads back through the import's conversion as the same value when its numbers are exact |
| CodexConvert.ImportCore | src-tauri/src/mcp/codex.rs:86-139 | the typed part of the import always records the entry's type |
| CodexConvert.Put | src-tauri/src/mcp/codex.rs:86-117 | a field is set exactly when a value is given for it, and the others stay |
| CodexConvert.PutAll | src-tauri/src/mcp/codex.rs:86-117 | an object whose fields are the type and four others is rebuilt by putting those fields one by one |
| CodexConvert.ImportStdioCore | src-tauri/src/mcp/codex.rs:87-117 | a stdio entry's typed fields record type `stdio` |
| CodexConvert.ImportHttpCore | src-tauri/src/mcp/codex.rs:118-139 | an http or sse entry's typed fields record its type |
| CodexConvert.ImportExtra | src-tauri/src/mcp/codex.rs:147-203 | exactly the entry's non-core fields that have a JSON form, each converted |
| CodexConvert.EntrySpec | src-tauri/src/mcp/codex.rs:61-205 | the corrected conversion of the Findings row (`http_headers` before the legacy `headers`; the code as written is `CodexConvert.EntrySpecAsWritten`): a spec exactly for a known type (`stdio`, `http`, `sse`), an object that records that type |
| CodexConvert.HttpHeadersPriority | src-tauri/src/mcp/codex.rs:118-139 | `http_headers` takes priority over the legacy `headers` table, and only its string values are kept |
| CodexConvert.AsWrittenLegacyHeadersWin | src-tauri/src/mcp/codex.rs:147-203 | as written, a legacy `headers` table of strings decides the imported headers, whatever `http_headers` says |
| CodexConvert.LegacyHeadersOverride | src-tauri/src/mcp/codex.rs:118-203 | the entry with `http_headers = { A = "1" }` and `headers = { B = "2" }` imports header B as written and header A once corrected |
| CodexConvert.ConvertExtraFields | src-tauri/src/mcp/codex.rs:147-203 | the loop over the entry's fields builds exactly the generic part |
| CodexConvert.ImportEntry | src-tauri/src/mcp/codex.rs:61-205 | the typed fields and then the generic ones give the spec `EntrySpec` defines, that is the corrected header priority of the Findings row (as written: `CodexConvert.EntrySpecAsWritten`) |
| CodexConvert.StringTableRoundTrip | src-tauri/src/mcp/codex.rs:130-135 | a table of strings read back keeps every entry |
| CodexConvert.StringObjectRoundTrip | src-tauri/src/mcp/codex.rs:601-607 | an object of strings taken apart and rebuilt is itself |
| CodexConvert.ExportStdio | src-tauri/src/mcp/codex.rs:579-610 | for a stdio spec in import shape, the table holds exactly its fields, each written in TOML form |
| CodexConvert.StdioFieldsPresent | src-tauri/src/mcp/codex.rs:579-610 | each optional stdio field is written exactly when the spec holds it |
| CodexConvert.ImportStdio | src-tauri/src/mcp/codex.rs:87-117 | importing that table gives back the spec's fields |
| CodexConvert.StdioRoundTrip | src-tauri/src/mcp/codex.rs:535-653 | a stdio spec in import shape survives being written to `config.toml` and imported back |
| CodexConvert.RoundTripGlue | src-tauri/src/mcp/codex.rs:61-205 | an entry with only core fields imports as the spec its core fields give |
| CodexConvert.ExportHttp | src-tauri/src/mcp/codex.rs:611-651 | for an http or sse spec in import shape, the table holds `type`, `url`, and the headers twice |
| CodexConvert.ImportHttp | src-tauri/src/mcp/codex.rs:118-139 | importing that table gives back the spec's fields |
| CodexConvert.HttpRoundTrip | src-tauri/src/mcp/codex.rs:535-653 | an http or sse spec in import shape survives being written and imported back: the headers go out twice and come back once |
| CodexConvert.ServerRoundTrip | src-tauri/src/mcp/codex.rs:535-653 | every spec in import shape survives being written to `config.toml` and imported back |
| McpCodex.ReadConfigText | src-tauri/src/mcp/codex.rs:46-53 | a missing file reads as empty text; unreadable text is an I/O error; text that is neither blank nor valid TOML is an error; otherwise the file's text |
| McpCodex.WithoutLegacy | src-tauri/src/mcp/codex.rs:295-303 | the cleanup removes the `servers` key from a `mcp` table, leaves no legacy servers and changes no other key |
| McpCodex.WithoutLegacyIdempotent | src-tauri/src/mcp/codex.rs:295-303 | cleaning up twice is cleaning up once |
| McpCodex.EntryOf | src-tauri/src/mcp/codex.rs:61-86 | an entry has a spec exactly when it is a table of a known type |
| McpCodex.CodexSpecs | src-tauri/src/mcp/codex.rs:61-205 | the specs of a servers table are exactly its table entries of a known type, each converted |
| McpCodex.CollectCodexSpecs | src-tauri/src/mcp/codex.rs:61-205 | the loop over one servers table builds exactly those specs |
| McpCodex.UnknownEntryIgnored | src-tauri/src/mcp/codex.rs:140-143 | once corrected, an entry of unknown type has no effect on the import of its table |
| McpCodex.ImportTableAsWritten | src-tauri/src/mcp/codex.rs:61-245 | as written, the import keeps every server it had and counts at most one change per visited entry |
| McpCodex.UnknownEntryStopsTable | src-tauri/src/mcp/codex.rs:140-143 | with an unknown entry `a` visited before a stdio entry `b`, the written import loses `b` while the corrected one imports it |
| McpCodex.ImportFromCodex | src-tauri/src/mcp/codex.rs:46-267 | runs the corrected table import of the Findings row, which skips an entry of unknown type where the code returns (as written: `McpCodex.ImportTableAsWritten`); a read error changes nothing; blank text imports nothing and counts 0; otherwise the legacy `[mcp.servers]` table is imported first and `[mcp_servers]` second, and the servers map exists afterwards |
| McpCodex.ServersTable | src-tauri/src/mcp/codex.rs:312-328 | one sub-table per enabled id, each the table `json_server_to_toml_table` builds |
| McpCodex.BuildServersTable | src-tauri/src/mcp/codex.rs:312-328 | the loop over the sorted ids builds exactly that table |
| McpCodex.SyncedDoc | src-tauri/src/mcp/codex.rs:295-329 | the written document has no legacy servers; `[mcp_servers]` is absent exactly when nothing is enabled and otherwise is the built table; every other key is unchanged |
| McpCodex.ServersTableImports | src-tauri/src/mcp/codex.rs:277-335 | importing the `[mcp_servers]` table the sync writes gives back the enabled specs, when each is in import shape |
| McpCodex.ItemRoundTrip | src-tauri/src/mcp/codex.rs:535-653 | one spec in import shape, written as a sub-table, reads back as itself |
| McpCodex.SyncEnabledToCodex | src-tauri/src/mcp/codex.rs:277-335 | a read or parse error writes nothing; otherwise `config.toml` becomes the synced document of the enabled Codex specs |
| McpCodex.SingleSyncedDoc | src-tauri/src/mcp/codex.rs:359-379 | an error exactly when `mcp_servers` exists and is not a table; otherwise no legacy servers, `[mcp_servers]` gains or replaces exactly the id, and every other key is unchanged |
| McpCodex.SyncSingleServerToCodex | src-tauri/src/mcp/codex.rs:339-384 | an unreadable file is an I/O error and invalid TOML the MCP validation error "解析 Codex config.toml 失败", both writing nothing; otherwise the file becomes the document with the id set |
| McpCodex.RemovedDoc | src-tauri/src/mcp/codex.rs:402-415 | the id leaves `[mcp_servers]` and the legacy `[mcp.servers]`, and nothing else changes |
| McpCodex.SyncSingleThenRemove | src-tauri/src/mcp/codex.rs:339-420 | removing after a single sync leaves no trace of the id in either servers table |
| McpCodex.SyncSingleImports | src-tauri/src/mcp/codex.rs:339-384 | after a single sync of a spec in import shape, importing the file gives back that spec under its id |
| McpCodex.RemoveServerFromCodex | src-tauri/src/mcp/codex.rs:388-420 | a missing file is left alone; an unreadable one is an I/O error; otherwise the document without the id is written back |
| McpImport.EnabledSpecs | src-tauri/src/mcp/claude.rs:12-32 | exactly the entries whose `enabled` is true and whose spec can be extracted, each as its extracted spec |
| McpImport.CollectEnabledServers | src-tauri/src/mcp/claude.rs:12-32 | the loop keeps exactly those entries |
| McpImport.ValidIds | src-tauri/src/mcp/claude.rs:58-64 | exactly the ids whose spec passes validation |
| McpImport.ImportAll | src-tauri/src/mcp/claude.rs:42-103 | exactly the valid ids are added or updated for the application, and every other server stays |
| McpImport.ImportUnique | src-tauri/src/mcp/claude.rs:42-103 | that description determines one servers map |
| McpImport.CountedIds | src-tauri/src/mcp/claude.rs:63-95 | an id is counted exactly when its spec is valid and it is new or lacked the application |
| McpImport.ImportSpecs | src-tauri/src/mcp/claude.rs:58-96 | the loop skips invalid specs, imports valid ones, and returns the import and the number of counted ids |
| McpImport.ImportInto | src-tauri/src/mcp/claude.rs:52-103 | the servers map exists afterwards and holds the import; nothing else in the configuration changes |
| McpImport.ImportLoopStep | src-tauri/src/mcp/claude.rs:58-96 | one turn of the loop extends the import by one id, leaving the ids not yet visited as they were |
| McpImport.ImportKeepsExisting | src-tauri/src/mcp/claude.rs:63-73 | an import only sets the application's flag of an existing server: its spec, name, metadata and other flags stay; every valid id ends up enabled for the application; an existing server with no valid spec is untouched |
| McpImport.CountBound | src-tauri/src/mcp/claude.rs:42-103 | the count never exceeds the number of valid entries, nor the number of entries read |
| McpImport.SetEnabledAgain | src-tauri/src/mcp/claude.rs:66-72 | enabling a flag that is already on leaves the flags as they are |
| McpImport.ImportIdempotent | src-tauri/src/mcp/claude.rs:42-103 | importing the same specs again changes nothing and counts nothing |
| McpJsonFile.ServersObject | src-tauri/src/mcp/claude.rs:42-54 | an `mcpServers` object is found exactly when the root is an object holding one |
| McpJsonFile.ReadServersMap | src-tauri/src/mcp/claude.rs:42-54 | an unreadable file is the only error; a missing file or one without an `mcpServers` object reads as empty |
| McpJsonFile.WithServersMap | src-tauri/src/mcp/claude.rs:106-120 | an error exactly for an unreadable file or a root that is not an object; otherwise the root keeps every other key and its `mcpServers` reads back as the given map |
| McpClaude.SetServersMap | src-tauri/src/mcp/claude.rs:35-38 | `mcpServers` is replaced in `~/.claude.json`; a failure writes nothing, and no other file changes |
| McpClaude.SyncEnabledToClaude | src-tauri/src/mcp/claude.rs:35-38 | the file's `mcpServers` reads back as exactly the enabled Claude entries; no other file changes |
| McpClaude.ImportFromClaude | src-tauri/src/mcp/claude.rs:42-103 | an unreadable file is the MCP validation error "解析 ~/.claude.json 失败" and changes nothing; a missing file or one without `mcpServers` imports nothing; otherwise every entry is imported for Claude and the counted ids are returned |
| McpClaude.SyncSingleServerToClaude | src-tauri/src/mcp/claude.rs:106-120 | the live map gains or replaces exactly the id; a failure writes nothing |
| McpClaude.RemoveServerFromClaude | src-tauri/src/mcp/claude.rs:123-132 | the live map loses exactly the id; a failure writes nothing |
| McpGemini.SetServersMap | src-tauri/src/mcp/gemini.rs:35-38 | `mcpServers` is replaced in Gemini's `settings.json`; a failure writes nothing, and no other file changes |
| McpGemini.SyncEnabledToGemini | src-tauri/src/mcp/gemini.rs:35-38 | the file's `mcpServers` reads back as exactly the enabled Gemini entries |
| McpGemini.ImportFromGemini | src-tauri/src/mcp/gemini.rs:42-99 | an unreadable file is an error, the settings read's own, and changes nothing; an empty live map imports nothing and does not create the servers map; otherwise every entry is imported for Gemini |
| McpGemini.SyncSingleServerToGemini | src-tauri/src/mcp/gemini.rs:102-115 | the live map gains or replaces exactly the id; a failure writes nothing |
| McpGemini.RemoveServerFromGemini | src-tauri/src/mcp/gemini.rs:118-127 | the live map loses exactly the id; a failure writes nothing |
| McpGrok.GrokEnabled | src-tauri/src/mcp/grok.rs:35-67 | when the unified servers map exists, exactly the servers with the Grok flag, as their specs; otherwise the enabled, extractable legacy Grok entries |
| McpGrok.CollectGrokEnabledServers | src-tauri/src/mcp/grok.rs:35-67 | the loop builds exactly that map |
| McpGrok.SyncEnabledToGrok | src-tauri/src/mcp/grok.rs:70-73 | an error exactly when the settings cannot be read or an entry is not a valid live entry, writing nothing, and the error is the read's own or that of a failing entry; otherwise the settings' `mcpServers` reads back as the Grok-enabled servers and only that file changes |
| McpGrok.ImportFromGrok | src-tauri/src/mcp/grok.rs:77-132 | an unreadable or malformed settings file is an error, the settings read's own, and changes nothing; otherwise every entry is imported for Grok, and the servers map always exists afterwards |
| McpGrok.SyncSingleServerToGrok | src-tauri/src/mcp/grok.rs:135-149 | the live map gains or replaces exactly the id; a failure writes nothing |
| McpGrok.RemoveServerFromGrok | src-tauri/src/mcp/grok.rs:152-161 | the live map loses exactly the id; a failure writes nothing |
| McpService.UntouchedApp | src-tauri/src/services/mcp.rs:85-106 | an application outside the touched set has exactly the same listed, withdrawn, projected and accepted servers before and after |
| McpService.SyncServerToApp | src-tauri/src/services/mcp.rs:77-106 | only that application's file changes; it succeeds exactly when the file accepts the write (Qwen always succeeds with no change); on failure nothing changes; on success the server is projected there with its spec and every server listed before is still listed |
| McpService.RemoveServerFromApp | src-tauri/src/services/mcp.rs:121-133 | only that application's file changes; it succeeds exactly when the file accepts the removal; on success the id is withdrawn and every other listed server remains |
| McpService.AppSet | src-tauri/src/services/mcp.rs:69 | an application is in the set exactly when the server's flag for it is on |
| McpService.SyncServerToApps | src-tauri/src/services/mcp.rs:68-74 | only the enabled applications' files change; success exactly when every enabled application accepts the write, and then the server is projected into each and nothing listed is lost |
| McpService.RemoveServerFromAllApps | src-tauri/src/services/mcp.rs:109-119 | only the enabled applications' files change; success exactly when every one accepts the removal, and then the id is withdrawn from each while every other listed server remains |
| McpService.ProjectedListed | src-tauri/src/services/mcp.rs:85-106 | a server projected into a file is listed there |
| McpService.FindStored | src-tauri/src/services/mcp.rs:29-41 | looking the id up in the listing of all servers gives the same answer as the stored row |
| McpService.UpsertServer | src-tauri/src/services/mcp.rs:19-26 | the row is saved whatever the sync outcome and reads back as the server; only the enabled applications' files change, and success means each accepted and now carries the server |
| McpService.DeleteServer | src-tauri/src/services/mcp.rs:29-41 | an unknown id returns false and changes nothing; a known id loses its row, only its enabled applications' files change, and success (true) means it is withdrawn from each |
| McpService.ToggleStored | src-tauri/src/services/mcp.rs:52-62 | the stored flag is set for the one application and saved, then the server is written to or removed from that application's file only |
| McpService.ToggleApp | src-tauri/src/services/mcp.rs:44-65 | an unknown id changes nothing and succeeds; a known one has its flag set and its file updated as the flag says |
| McpService.SetEnabled | src-tauri/src/services/mcp.rs:170-178 | the same effect as toggling, and success always reports true |
| McpService.GetServers | src-tauri/src/services/mcp.rs:152-166 | exactly the servers enabled for the application, each mapped to its stored spec |
| McpService.StoredListed | src-tauri/src/services/mcp.rs:136-144 | once every server in the listing is listed in its enabled applications, every stored enabled server is |
| McpService.StoredListedFor | src-tauri/src/services/mcp.rs:182-192 | the same for a single application |
| McpService.SyncAllEnabled | src-tauri/src/services/mcp.rs:136-144 | no database change; on success every stored server is listed in every application it is enabled for |
| McpService.SyncEnabled | src-tauri/src/services/mcp.rs:182-192 | only that application's file changes; on success every stored server enabled for it is listed there |
| McpService.ImportOnlyFor | src-tauri/src/services/mcp.rs:195-214 | importing into a map whose servers are enabled only for the application keeps that property |
| McpService.TempImportOnlyFor | src-tauri/src/services/mcp.rs:195-280 | every server imported into the fresh temporary map is enabled for the source application only |
| McpService.ImportTemp | src-tauri/src/services/mcp.rs:195-280 | reads the application's file into the temporary map exactly as the per-application import describes |
| McpService.StoredMcp | src-tauri/src/services/mcp.rs:195-214 | one server per stored row, under the same id, decoded from that row |
| McpService.SaveAndSync | src-tauri/src/services/mcp.rs:206-211 | on success the saved rows are the old rows overwritten by the imported ones, and each imported server is listed in the applications it is enabled for |
| McpService.ImportFromAppAsWritten | src-tauri/src/services/mcp.rs:195-280 | a failed read of the application's file is returned as that import's own error with nothing changed; otherwise the count is returned and, when positive, the freshly imported servers overwrite the stored rows wholesale |
| McpService.Merged | src-tauri/src/mcp/claude.rs:66-98 | for each imported id: a new id gets the imported server; a stored id keeps its stored name, spec and fields and gains the imported application flag |
| McpService.OrOnlyApp | src-tauri/src/mcp/claude.rs:66-72 | adding the flags of a single application is the same as setting that flag |
| McpService.MergedIsImport | src-tauri/src/mcp/claude.rs:42-103 | merging the fresh import with the stored servers is exactly what importing straight into the stored map gives, restricted to the valid ids |
| McpService.ImportFromApp | src-tauri/src/mcp/claude.rs:42-103 | as the as-written import, including its errors, except that the stored servers are merged with the imported ones instead of being overwritten |
| McpService.ImportOverwritesStored | src-tauri/src/services/mcp.rs:195-214 | for a server stored with a Codex flag and a custom name, the as-written import drops the Codex flag and the name, while the merged import keeps both and adds Claude |
| ProviderService.NormalizeProviderIfClaude | src-tauri/src/services/provider/mod.rs:77-84 | the id is kept; a Claude provider gets its model keys normalised and any other application's provider is unchanged |
| ProviderService.PreparedIdempotent | src-tauri/src/services/provider/mod.rs:77-84 | preparing a provider twice is the same as preparing it once |
| ProviderService.Candidates | src-tauri/src/settings.rs:297-321 | the candidates are drawn from the application's providers and the database's current ids; a local choice naming an existing provider is the only candidate |
| ProviderService.Current | src-tauri/src/services/provider/mod.rs:99-102 | a non-empty answer is one of the candidates; an empty answer means there was no candidate or the candidate was the empty id |
| ProviderService.IsEffectiveCurrent | src-tauri/src/services/provider/mod.rs:135-138 | true only for a candidate, and always true for the sole candidate; no other application's choice changes |
| ProviderService.EffectiveCurrent | src-tauri/src/settings.rs:297-321 | the answer is a candidate and a stored provider of the application; none only when there is no candidate; other applications' choices are untouched |
| ProviderService.SaveKeepingCurrent | src-tauri/src/database/dao/providers.rs:128-221 | the provider is stored under its id, every other row is unchanged, its custom endpoints are replaced as described and no current flag moves |
| ProviderService.Add | src-tauri/src/services/provider/mod.rs:105-125 | a provider failing validation is rejected with that error and nothing changes; a valid one is saved; if the application already had a current provider nothing else changes, otherwise it becomes current and its live snapshot is written, the result following the snapshot, and a failing snapshot leaves only what it wrote before failing |
| ProviderService.AddAsCurrent | src-tauri/src/services/provider/mod.rs:116-122 | the saved provider becomes the application's only current row, keeping its saved row and every key and endpoint row; the live snapshot is written, and its failure is returned with the files as the failed snapshot left them |
| ProviderService.Delete | src-tauri/src/services/provider/mod.rs:158-170 | the provider named current locally or in the database is refused with the in-use message and nothing changes; any other id is removed together with its endpoints |
| ProviderService.Update | src-tauri/src/services/provider/mod.rs:128-153 | invalid settings are rejected with nothing changed; otherwise the provider is saved with no current flag moved; live files change only when it is the effective current provider, and then a failing snapshot is an error leaving only what it wrote before failing, and success means the live files and MCP servers are synced |
| ProviderService.WriteLiveAndSync | src-tauri/src/services/provider/mod.rs:144-148 | nothing is rolled back: a failing snapshot is an error leaving only what it wrote before failing (the Gemini env and settings when the auth-type flag step fails); after a snapshot that succeeds only the MCP files change, whatever the sync's outcome; success means every enabled MCP server is listed |
| ProviderService.FindInListing | src-tauri/src/services/provider/mod.rs:183-186 | looking the id up in the listing gives the stored provider |
| ProviderService.BackfillRowOf | src-tauri/src/services/provider/mod.rs:197-201 | saving the current provider with the live settings yields exactly the backfilled row |
| ProviderService.BackfillChangesSettingsOnly | src-tauri/src/services/provider/mod.rs:197-201 | for a row without custom endpoints, backfilling replaces the settings and nothing else |
| ProviderService.Backfill | src-tauri/src/services/provider/mod.rs:188-204 | only the effective current provider's row can change, and only when it differs from the target and the live settings read; it then becomes the backfilled row, and otherwise no row changes |
| ProviderService.BackfillSave | src-tauri/src/services/provider/mod.rs:196-201 | saving the stored provider with the live settings in place of its own replaces exactly its row, by the backfilled row, and keeps every endpoint row and current flag |
| ProviderService.Switch | src-tauri/src/services/provider/mod.rs:181-218 | an unknown id fails with the not-found message and changes nothing; success makes the id current locally and in the database and syncs the live files; a failing settings write (`writeFails`, mod.rs:206) leaves the files and current flags alone; once that write succeeds the id is current locally and in the database whatever follows, and a failing snapshot or MCP sync is an error with no rollback; the previous current provider is backfilled from live settings and no other row changes |
| ProviderService.SwitchFound | src-tauri/src/services/provider/mod.rs:188-217 | the same guarantees once the target has been found: a failing settings write changes no file and no current flag; otherwise the id is current locally and in the database, and the files are as the snapshot and the MCP sync left them, failing or not, with no rollback |
| ProviderService.BackfillCurrent | src-tauri/src/services/provider/mod.rs:188-204 | only the sole candidate's row changes, to its backfilled form, when it differs from the target and the live settings read |
| ProviderService.Activate | src-tauri/src/services/provider/mod.rs:207-217 | success makes the id current locally and as the database's only current row and syncs the live files; a failing settings write (`writeFails`, mod.rs:206) changes no file and no current flag; otherwise the id stays current locally and in the database even when the snapshot or the MCP sync fails afterwards, and the files are what those steps left |
| ProviderService.MoveCurrent | src-tauri/src/database/dao/providers.rs:235-257 | exactly that id is the application's current provider; other applications and all row contents other than the flag are unchanged |
| ProviderService.LastSortIndex | src-tauri/src/services/provider/mod.rs:277-292 | none exactly when no update names the id; otherwise the index of the last update that names it |
| ProviderService.ById | src-tauri/src/services/provider/mod.rs:283-284 | every listed provider is reachable by its id and every entry is a listed provider under its own id |
| ProviderService.UpdateSortOrder | src-tauri/src/services/provider/mod.rs:277-292 | always true; each provider named by an update gets the last index given for it, with nothing else changed, and every other row is unchanged |
| ProviderService.SortAllKeys | src-tauri/src/services/provider/mod.rs:282-289 | applying the updates keeps the same rows and listing |
| ProviderService.SortAllListed | src-tauri/src/services/provider/mod.rs:282-289 | each listed provider ends with the sort index of its last update |
| ProviderService.SortAllRow | src-tauri/src/services/provider/mod.rs:282-289 | each row named by an update becomes the resorted provider and every other row is unchanged |
| ProviderService.ApplySortUpdates | src-tauri/src/services/provider/mod.rs:282-289 | the loop leaves exactly the rows the updates describe |
| ProviderService.LastSortIndexSnoc | src-tauri/src/services/provider/mod.rs:282-289 | a later update for an id overrides earlier ones, and leaves other ids' answers alone |
| ProviderService.ApplySortUpdate | src-tauri/src/services/provider/mod.rs:283-288 | one update changes the rows and listing as one step describes |
| ProviderService.ResortChangesOnlyPosition | src-tauri/src/services/provider/mod.rs:283-288 | for a row without custom endpoints, re-saving with a new index changes only the sort index |
| ProviderService.DefaultSettings | src-tauri/src/services/provider/live.rs:267-374 | a missing main live file is the import's own per-application error; otherwise succeeds exactly when the live settings read; Claude settings are normalised, other applications' are taken as read, and a read error is passed on |
| ProviderService.DefaultProvider | src-tauri/src/services/provider/live.rs:267-374 | the imported provider is called default, carries the live settings and is in the custom category with no metadata, order or creation time |
| ProviderService.ImportDefaultConfig | src-tauri/src/services/provider/live.rs:267-374 | an application that already has providers is skipped with false and nothing changes; a failing read (with the import's own missing-file errors) is returned with nothing changed; otherwise a default provider is stored as current and true is returned |
| ProviderService.SaveAsCurrent | src-tauri/src/services/provider/live.rs:267-374 | exactly one row is added, marked current |
| ProviderService.ImportedReadsBack | src-tauri/src/services/provider/live.rs:267-374 | the stored default provider reads back as itself with default metadata |
| ProviderService.SnapshotEachSnoc | src-tauri/src/services/provider/live.rs:155-175 | one more application either carries the earlier failure, skips, or writes its snapshot onto the files so far |
| ProviderService.SnapshotEachSkips | src-tauri/src/services/provider/live.rs:155-175 | an application for which no provider was picked keeps its files |
| ProviderService.SyncCurrentToLive | src-tauri/src/services/provider/live.rs:155-175 | each application's current provider is picked from its candidates and its snapshot written in order; the first failure stops the sync; success means every snapshot is written and every enabled MCP server is listed |
| ProviderService.WriteEachCurrent | src-tauri/src/services/provider/live.rs:155-175 | succeeds exactly when the snapshots so far succeed, and then the files are those snapshots |
| ProviderService.SyncCurrentStep | src-tauri/src/services/provider/live.rs:158-172 | no pick changes nothing and succeeds; a pick writes its snapshot and succeeds exactly when the snapshot does, a failing one leaving only what it wrote before failing; other applications' choices are untouched |
| PromptService.PromptFiles.WriteText | src-tauri/src/services/prompt.rs:41-42 | the application's prompt file now holds exactly the content and no other file changes |
| PromptService.EnabledIds | src-tauri/src/services/prompt.rs:70-73 | exactly the ids of enabled prompts |
| PromptService.BackupPrompt | src-tauri/src/services/prompt.rs:86-99 | the backup is named after the clock, carries the live content and is not enabled |
| PromptService.Backfilled | src-tauri/src/services/prompt.rs:63-110 | backfilling never removes a prompt |
| PromptService.Disabled | src-tauri/src/services/prompt.rs:115-117 | every prompt is kept with its flag cleared |
| PromptService.OnlyEnabledShape | src-tauri/src/services/prompt.rs:112-130 | after enabling one prompt the ids are the same, exactly that prompt is enabled, and every other prompt is the same with its flag cleared |
| PromptService.PickDetermined | src-tauri/src/services/prompt.rs:70-73 | while at most one prompt is enabled, the enabled prompt the backfill finds is unique |
| PromptService.BackfillKeepsLive | src-tauri/src/services/prompt.rs:63-110 | after backfilling non-blank live content, some prompt carries that content, so it is never lost |
| PromptService.BackupOnce | src-tauri/src/services/prompt.rs:81-85 | backfilling the same live content again with no enabled prompt creates no second backup |
| PromptService.BackfillKeepsFlags | src-tauri/src/services/prompt.rs:63-110 | backfilling changes no enabled flag, so at most one enabled prompt stays so |
| PromptService.ReenableKeepsFile | src-tauri/src/services/prompt.rs:69-79 | re-enabling the enabled prompt first stores the live file's content into it |
| PromptService.DisableAll | src-tauri/src/services/prompt.rs:115-117 | the loop clears every flag and keeps every prompt |
| PromptService.UpsertPrompt | src-tauri/src/services/prompt.rs:28-46 | the application's prompts get the entry and other applications' are unchanged; the file is written with the content only when the prompt is enabled |
| PromptService.UpsertKeepsOneEnabled | src-tauri/src/services/prompt.rs:28-46 | an upsert keeps at most one prompt enabled exactly when it is disabled or no other prompt is enabled |
| PromptService.DeletePrompt | src-tauri/src/services/prompt.rs:48-59 | it fails exactly when the prompt exists and is enabled, with the refusal message and nothing changed; otherwise the id is gone and other applications are unchanged |
| PromptService.DeleteKeepsEnabled | src-tauri/src/services/prompt.rs:48-59 | deleting a prompt that is not enabled keeps the enabled set |
| PromptService.BackfillSaveGives | src-tauri/src/services/prompt.rs:63-110 | saving the one row the backfill produces gives the application exactly the backfilled prompts |
| PromptService.BackfillLive | src-tauri/src/services/prompt.rs:63-110 | the enabled prompt found is a valid pick, and at most that one row (or one backup) is saved |
| PromptService.ActivatePrompt | src-tauri/src/services/prompt.rs:112-131 | an unknown id fails with the not-found message and nothing changes; otherwise exactly that prompt is enabled, all others are saved disabled and the file holds its content |
| PromptService.OnlyEnabledCovers | src-tauri/src/services/prompt.rs:127-129 | saving every prompt after enabling one leaves exactly the enabled map |
| PromptService.OnlyEnabledKeyed | src-tauri/src/services/prompt.rs:127-129 | each prompt stays under its own id |
| PromptService.EnablePrompt | src-tauri/src/services/prompt.rs:61-132 | it fails exactly when the id is missing after the backfill, keeping the backfill; otherwise exactly that prompt is enabled and the file holds its content; other applications are unchanged |
| PromptService.ImportedPrompt | src-tauri/src/services/prompt.rs:145-156 | the imported prompt is named after the clock, carries the content and is not enabled |
| PromptService.ImportFromFile | src-tauri/src/services/prompt.rs:134-161 | a missing file fails with the missing-file message and an unreadable one with an I/O error, nothing changed; otherwise the new id is returned and that prompt is added |
| PromptService.ImportKeepsOneEnabled | src-tauri/src/services/prompt.rs:134-161 | an import keeps at most one prompt enabled |
| PromptService.CurrentFileContent | src-tauri/src/services/prompt.rs:163-171 | fails exactly on an unreadable file; otherwise some content exactly when the file exists, and then the file's content |
| PromptService.FirstLaunchImport | src-tauri/src/services/prompt.rs:175-229 | an import happens exactly when the application has no prompts and the file exists, reads and is not blank; the imported prompt carries the content and is enabled |
| PromptService.ImportFromFileOnFirstLaunch | src-tauri/src/services/prompt.rs:175-229 | it returns 1 and stores exactly that prompt when the import applies, otherwise returns 0 and changes nothing; other applications are unchanged |
| PromptService.FirstLaunchOnce | src-tauri/src/services/prompt.rs:175-229 | a second first-launch import does nothing, and the imported prompt is the only enabled one and matches the file |
| ConfigService.CleanupOldBackups | src-tauri/src/services/config.rs:41-84 | a zero retain count removes nothing; otherwise only .json backups are removed, each once, as many as exceed the retain count, never one newer than a survivor, and exactly min(count, retain) remain |
| ConfigService.CreateBackup | src-tauri/src/services/config.rs:17-39 | a missing config gives the empty id and changes nothing; an unreadable one is an I/O error; otherwise the id is backup_ followed by the time stamp, the copy is written, at most ten backups remain, and a copy newer than every other backup survives the cleanup |
| ConfigService.NewestSurvives | src-tauri/src/services/config.rs:60-81 | the strictly newest backup is never among the removed ones |
| ConfigService.LegacyConfig.constructor | src-tauri/src/services/config.rs:87 | the configuration holds the given provider managers and MCP section |
| ConfigService.CurrentOf | src-tauri/src/services/config.rs:100-121 | there is a current provider exactly when the application has a manager whose non-empty current id names one of its providers, and then it is that provider |
| ConfigService.CodexShape | src-tauri/src/services/config.rs:142-152 | the settings pass exactly when they are an object with an object auth field, which is returned; each other shape gives its own configuration error message |
| ConfigService.StoreSettings | src-tauri/src/services/config.rs:159-168 | only the current provider's stored settings change, to the value read back |
| ConfigService.WriteCodexLiveAtomic | src-tauri/src/services/config.rs:155 | the write succeeds exactly when the modelled atomic write does, then leaves its files, and on failure changes nothing |
| ConfigService.SyncClaudeLive | src-tauri/src/services/config.rs:173-195 | the live file and the stored settings end as one Claude sync step describes |
| ConfigService.SyncCodexLive | src-tauri/src/services/config.rs:137-171 | the files and stored settings end as one Codex sync step describes; a malformed provider fails with its configuration error |
| ConfigService.SyncGeminiLive | src-tauri/src/services/config.rs:197-226 | the files and stored settings end as one Gemini sync step describes: the full Gemini write, auth-type flag included, then `.env` and `settings.json` read back into the stored provider; a failing flag step leaves the env and settings written before it |
| ConfigService.SyncGrokLive | src-tauri/src/services/config.rs:228-249 | the files and stored settings end as one Grok sync step describes |
| ConfigService.SyncCurrentProviderForApp | src-tauri/src/services/config.rs:96-135 | no manager, an empty current id or a missing provider changes nothing and succeeds; Qwen does nothing; otherwise the application's sync step is performed |
| ConfigService.SyncCurrentProvidersToLive | src-tauri/src/services/config.rs:87-94 | the five applications are synced in order and the first failure stops the rest |
| ConfigService.StoreBackCurrent | src-tauri/src/services/config.rs:159-168 | storing back keeps the same current provider with the new settings and changes nothing else |
| ConfigService.AppSyncFrame | src-tauri/src/services/config.rs:123-132 | syncing one application changes only that application's files |
| ConfigService.CodexSyncFrame | src-tauri/src/services/config.rs:137-171 | the Codex sync changes only the Codex auth and config files |
| ConfigService.SyncForAppFrame | src-tauri/src/services/config.rs:96-135 | syncing one application changes only its files and its current provider's settings |
| ConfigService.SyncForAppMirrors | src-tauri/src/services/config.rs:96-135 | after a successful sync the stored current settings mirror what the live files hold |
| ConfigService.GrokReadBack | src-tauri/src/services/config.rs:235-246 | after a successful Grok sync the live settings file holds exactly the settings stored back |
| ConfigService.CodexSyncServers | src-tauri/src/services/config.rs:137-171 | the Codex sync succeeds exactly when the provider is well formed and its config text parses; the config then lists exactly the enabled MCP servers and keeps every other table of the provider's config |
| ConfigService.GrokSyncResult | src-tauri/src/services/config.rs:228-249 | the Grok sync succeeds exactly when the settings decode and every enabled server converts; the stored settings are then the provider's with the enabled servers as its MCP section |
| ConfigService.GrokReadsBack | src-tauri/src/grok_config.rs:85-110 | Grok settings written and read back come out unchanged, with or without a replaced MCP section |
| ConfigService.MirrorsFrame | src-tauri/src/services/config.rs:87-94 | syncing another application keeps an application's mirror |
| ConfigService.ThenKeeps | src-tauri/src/services/config.rs:87-94 | one more step for another application keeps an application's mirror |
| ConfigService.SyncAllMirrors | src-tauri/src/services/config.rs:87-94 | after a successful sync of all applications each mirrors its live files |
| ProviderLive.ValidateUsageScript | src-tauri/src/services/provider/usage.rs:165-180 | a usage script passes exactly when it has no auto-query interval or one of at most 1440 minutes; a failure is the localised `usage_script.interval_too_large` error whose zh and en texts carry the interval |
| ProviderLive.ValidateCodexSettings | src-tauri/src/services/provider/mod.rs:334-407 | Codex settings pass exactly when they are an object with an object auth field and a config that is absent, null or a string that parses as TOML; a missing auth field gives the source's key and texts naming the provider id |
| ProviderLive.ValidateAppSettings | src-tauri/src/services/provider/mod.rs:334-407 | Claude settings must be an object, Codex settings follow the Codex rule, Gemini settings the Gemini validator, whose own error is returned, Grok settings must decode, and Qwen settings always pass |
| ProviderLive.ValidateProviderSettings | src-tauri/src/services/provider/mod.rs:334-407 | a provider passes exactly when its application's settings pass and any usage script passes; an application error is reported first |
| ProviderLive.MergeBase | src-tauri/src/services/provider/live.rs:398-403 | the existing settings file when it exists, otherwise an empty object |
| ProviderLive.GeminiLive | src-tauri/src/services/provider/live.rs:377-461 | a successful write needs the env and settings writes to succeed and then the auth-type flag step, whose result is the final `settings.json`; only the Gemini env and settings files change |
| ProviderLive.GeminiEnvAndSettings | src-tauri/src/services/provider/live.rs:377-448 | the env and settings writes need convertible env settings, an acceptable config and either official auth or strictly valid settings; the env conversion's and the strict validator's own errors are returned; only the Gemini env and settings files change |
| ProviderLive.AfterFailedSnapshot | src-tauri/src/services/provider/live.rs:109-148 | after a failed live write, files other than Gemini's are as they were, and Gemini's too when the failure came before its first write |
| ProviderLive.GeminiFlagFailureKeepsWrites | src-tauri/src/services/provider/live.rs:450-458 | a failing auth-type flag step fails the live write with its own error while the env and settings written before it stay |
| ProviderLive.Snapshot | src-tauri/src/services/provider/live.rs:109-148 | a Codex snapshot needs a string config and an auth field (refused with the source's messages otherwise) |
| ProviderLive.SnapshotFrame | src-tauri/src/services/provider/live.rs:109-148 | a snapshot changes only the application's own files |
| ProviderLive.MergeConfig | src-tauri/src/services/provider/live.rs:405-412 | the merged settings are the existing ones overridden key by key by the provider's config |
| ProviderLive.WriteGeminiLive | src-tauri/src/services/provider/live.rs:377-461 | succeeds exactly when the Gemini write is possible, then leaves its files; a failure before the first write changes nothing, and a failing auth-type flag step leaves the env and settings already written |
| ProviderLive.WriteLiveSnapshot | src-tauri/src/services/provider/live.rs:109-148 | succeeds exactly when the snapshot is possible, then leaves its files; a failure returns the snapshot's error and leaves the files `AfterFailedSnapshot` gives |
| ProviderLive.ReadRequired | src-tauri/src/services/provider/live.rs:178-261 | a file that must exist reads as its content, and is the given per-application error when absent |
| ProviderLive.LiveMissing | src-tauri/src/services/provider/live.rs:181-256 | each application's missing-file error is a localized one with the source's key and texts |
| ProviderLive.ReadLive | src-tauri/src/services/provider/live.rs:178-261 | a missing main file is the given error; Codex settings read as auth and config text; Gemini settings as env and config, with an empty config when the settings file is missing; Claude settings need the settings file |
| ProviderService.ImportMissing | src-tauri/src/services/provider/live.rs:276-355 | the import's missing-file errors are `read_live_settings`' for Claude and Grok and its own for Codex, Gemini and Qwen |
| ProviderLive.ReadLiveSettings | src-tauri/src/services/provider/live.rs:178-261 | a missing main live file is the per-application error of `read_live_settings` (`LiveMissing`) |
| ProviderLive.ClaudeQwenRoundTrip | src-tauri/src/services/provider/live.rs:109-261 | for Claude and Qwen, a written snapshot reads back as the provider's settings |
| ProviderLive.CodexRoundTrip | src-tauri/src/services/provider/live.rs:109-261 | Codex settings with exactly auth and a valid config text read back unchanged after a snapshot |
| ProviderLive.GrokRoundTrip | src-tauri/src/services/provider/live.rs:109-261 | Grok settings that decode read back to the same decoded settings after a snapshot |
| ProviderLive.GeminiMergeKeepsOthers | src-tauri/src/services/provider/live.rs:395-413 | each key of the settings written before the auth-type flag step comes from the provider's config if present there, else from the existing file, and no other key appears |
| ProviderLive.GeminiNullConfigPreserves | src-tauri/src/services/provider/live.rs:420-458 | an absent or null config leaves the Gemini settings file as it was until the auth-type flag step, which then works on that file |
| ProviderLive.GeminiBadConfigRefused | src-tauri/src/services/provider/live.rs:413-419 | a config that is neither an object nor null is refused before any file is written |
| ProviderLive.GeminiEnvWritten | src-tauri/src/services/provider/live.rs:428-461 | official auth writes an empty env file; any other auth must pass strict validation and writes the provider's env |
| ProviderLive.CodexValidButNotWritable | src-tauri/src/services/provider/mod.rs:334-407 | a Codex provider with auth but no config passes validation yet its snapshot fails |
| ProviderLive.Put | src-tauri/src/services/provider/live.rs:46-105 | a saved value becomes a present file and a missing one an absent file |
| ProviderLive.Restore | src-tauri/src/services/provider/live.rs:46-105 | the files become exactly the restored snapshot |
| ProviderLive.RestoreCaptured | src-tauri/src/services/provider/live.rs:46-105 | restoring a captured snapshot gives back that application's files exactly and leaves every other application's files alone |
| Endpoints.NormalizeUrl | src-tauri/src/services/provider/endpoints.rs:41 | the URL is trimmed and then loses exactly its run of trailing slashes, so it never ends in a slash |
| Endpoints.NormalizeUrlTrailingSlash | src-tauri/src/services/provider/endpoints.rs:41 | one more trailing slash on a trimmed URL makes no difference |
| Endpoints.NormalizeUrlFixedPoint | src-tauri/src/services/provider/endpoints.rs:41 | normalising again changes nothing when the first result has no surrounding blanks |
| Endpoints.NormalizeUrlNotIdempotent | src-tauri/src/services/provider/endpoints.rs:41 | a URL whose blanks sit before its trailing slash normalises differently the second time |
| Endpoints.NewestFirstOrder | src-tauri/src/services/provider/endpoints.rs:30 | the sort key orders endpoints by descending time of addition |
| Endpoints.ValuesAt | src-tauri/src/services/provider/endpoints.rs:29 | the endpoints listed under the given URLs, in that order |
| Endpoints.GetCustomEndpoints | src-tauri/src/services/provider/endpoints.rs:13-32 | an unknown provider has no endpoints; otherwise every stored endpoint appears once, nothing else appears, and the newest come first |
| Endpoints.NewestFirstValues | src-tauri/src/services/provider/endpoints.rs:29-31 | the loop returns each endpoint exactly once, newest first |
| Endpoints.NewestFirstSorted | src-tauri/src/services/provider/endpoints.rs:30 | a list sorted by the key is ordered newest first |
| Endpoints.DistinctCardinality | src-tauri/src/services/provider/endpoints.rs:29 | a list of distinct keys has as many entries as the set of those keys |
| Endpoints.AddCustomEndpoint | src-tauri/src/services/provider/endpoints.rs:35-54 | an empty normalised URL is refused with the url_required message; otherwise the row is added exactly when the provider exists, with the normalised URL and the clock; no provider row changes |
| Endpoints.RemoveCustomEndpoint | src-tauri/src/services/provider/endpoints.rs:57-68 | always succeeds and deletes exactly the rows of that provider with the normalised URL |
| Endpoints.LatestAgrees | src-tauri/src/database/dao/providers.rs:14-102 | two row sets that agree on the rows of a URL give that URL the same endpoint |
| Endpoints.AddThenRead | src-tauri/src/services/provider/endpoints.rs:35-54 | after adding, the provider's endpoints include the URL with the new time and no last use |
| Endpoints.AddKeepsOthers | src-tauri/src/services/provider/endpoints.rs:35-54 | adding a URL leaves every other URL's endpoint unchanged |
| Endpoints.RemoveThenRead | src-tauri/src/services/provider/endpoints.rs:57-68 | after removal the URL is gone and every other URL's endpoint is unchanged |
| Endpoints.RemoveAfterAdd | src-tauri/src/services/provider/endpoints.rs:35-68 | removing a URL just added restores the rows exactly |
| Endpoints.MarkUsed | src-tauri/src/services/provider/endpoints.rs:81-86 | the provider keeps its endpoints; only that endpoint's last use becomes the clock |
| Endpoints.UpdateEndpointLastUsed | src-tauri/src/services/provider/endpoints.rs:71-90 | always succeeds; a known provider with that endpoint is saved marked as used, and otherwise nothing changes |
| Endpoints.LastUsedNotPersisted | src-tauri/src/database/dao/providers.rs:128-221 | for a row without stored endpoints, saving the marked provider writes back the same row, so the last use is not kept |
| Endpoints.ReadEndpointsNeverUsed | src-tauri/src/database/dao/providers.rs:14-102 | endpoints read from the endpoint rows never carry a last use |
| GrokConfig.OptionalString | src-tauri/src/grok_config.rs:74-76 | an optional string field is an error exactly when present with another type than string or null, and is set exactly when it is a string |
| GrokConfig.StringItems | src-tauri/src/grok_config.rs:74-76 | a list converts exactly when every item is a string, giving those strings in order |
| GrokConfig.StringArray | src-tauri/src/grok_config.rs:79-81 | the strings as a JSON array, in order |
| GrokConfig.Models | src-tauri/src/grok_config.rs:74-76 | a missing models field is empty; a present one must be an array of strings |
| GrokConfig.ServerMap | src-tauri/src/grok_config.rs:74-76 | the MCP section is an error exactly when present and neither object nor null, and is set exactly when it is an object |
| GrokConfig.Version | src-tauri/src/grok_config.rs:74-76 | the settings version must be an integer that fits in 32 unsigned bits |
| GrokConfig.FromJson | src-tauri/src/grok_config.rs:74-76 | decoding succeeds exactly when the value is an object whose every field has the right type, with a version below 2^32 |
| GrokConfig.ToJson | src-tauri/src/grok_config.rs:79-81 | an object carrying the version and only the six known keys |
| GrokConfig.StringItemsOfArray | src-tauri/src/grok_config.rs:74-81 | strings written as an array read back unchanged |
| GrokConfig.ToJsonFields | src-tauri/src/grok_config.rs:74-81 | the optional strings and the MCP section read back unchanged |
| GrokConfig.ToJsonModels | src-tauri/src/grok_config.rs:74-81 | the model list reads back unchanged |
| GrokConfig.RoundTrip | src-tauri/src/grok_config.rs:74-81 | settings with a 32-bit version decode back to themselves after encoding |
| GrokConfig.ReserializeKeepsKnownFields | src-tauri/src/grok_config.rs:74-81 | re-encoding decoded settings keeps only the known keys and decodes to the same settings |
| GrokConfig.ReadGrokSettings | src-tauri/src/grok_config.rs:85-96 | a missing file gives the defaults, an unreadable one an error, and a present one its decoding |
| GrokConfig.ReadMcpServersMap | src-tauri/src/grok_config.rs:113-116 | succeeds exactly when the settings read; no MCP section gives an empty map |
| GrokConfig.WriteGrokSettings | src-tauri/src/grok_config.rs:99-110 | the Grok settings file holds exactly the encoded settings and nothing else changes |
| GrokConfig.LiveEntry | src-tauri/src/grok_config.rs:119-154 | an entry converts exactly when it is an object whose server field, if any, is an object; the result is that server object or the entry itself without the interface keys; a non-object entry is the MCP validation error "MCP 服务器 'id' 不是对象" and a non-object server field "MCP 服务器 'id' server 字段不是对象" |
| GrokConfig.LiveEntries | src-tauri/src/grok_config.rs:119-154 | every id is kept and each maps to its converted entry |
| GrokConfig.SetMcpServersMap | src-tauri/src/grok_config.rs:119-154 | succeeds exactly when the settings read and every entry converts; then only the MCP section is replaced; on failure nothing changes, and the error is the settings read's own or that of an entry that fails to convert |
| GrokConfig.SetThenRead | src-tauri/src/grok_config.rs:113-154 | reading the servers back after setting them gives exactly the converted entries |
| Settings.NormalizeDir | src-tauri/src/settings.rs:103-129 | a directory override is dropped when missing or blank and otherwise trimmed |
| Settings.NormalizeLanguage | src-tauri/src/settings.rs:131-136 | a language is kept, trimmed, exactly when it is en, zh or ja |
| Settings.NormalizeDirClean | src-tauri/src/settings.rs:102-137 | a normalised directory is clean, and a clean one is left as it is |
| Settings.NormalizeLanguageClean | src-tauri/src/settings.rs:131-136 | a normalised language is one offered, and an offered one is left as it is |
| Settings.TrimOfLanguage | src-tauri/src/settings.rs:131-136 | a two-letter code without blanks trims to itself |
| Settings.NormalizeIdempotent | src-tauri/src/settings.rs:102-137 | normalised settings are a fixed point of normalisation, and only those |
| Settings.WithCurrentProvider | src-tauri/src/settings.rs:275-286 | the application's current provider becomes the id and every other field stays |
| Settings.NormalizeKeepsCurrent | src-tauri/src/settings.rs:102-137 | normalisation never changes a current provider |
| Settings.JoinPath | src-tauri/src/settings.rs:188-197 | an absolute part replaces the base; otherwise the result starts with the base and ends with the part |
| Settings.ResolveOverridePath | src-tauri/src/settings.rs:183-199 | without a home directory, or without a leading tilde, the path stays; a lone tilde is the home directory |
| Settings.ResolveUnderHome | src-tauri/src/settings.rs:187-191 | a relative path after ~/ resolves under the home directory |
| Settings.LoadFromFile | src-tauri/src/settings.rs:139-159 | the loaded settings are normalised; a parsed file gives its normalisation and a missing or unparsable one the defaults |
| Settings.SaveLoadRoundTrip | src-tauri/src/settings.rs:162-175 | saved settings load back unchanged |
| Settings.SettingsStore.constructor | src-tauri/src/settings.rs:179-181 | the cache holds what the file loads to |
| Settings.SettingsStore.OverrideDir | src-tauri/src/settings.rs:223-253 | an override exists exactly when the settings name a directory for the application, and without a home directory it is that directory |
| Settings.SettingsStore.UpdateSettings | src-tauri/src/settings.rs:205-212 | fails exactly when the write fails, changing nothing; otherwise the file and the cache hold the normalised settings |
| Settings.SettingsStore.ReloadSettings | src-tauri/src/settings.rs:216-221 | the cache becomes what the file loads to |
| Settings.SettingsStore.SetCurrentProvider | src-tauri/src/settings.rs:275-286 | fails exactly when the write fails, changing nothing; otherwise only that application's current provider changes, in the cache and the file |
| Settings.SettingsStore.GetEffectiveCurrentProvider | src-tauri/src/settings.rs:297-321 | a local id naming a stored provider is returned with nothing changed; otherwise the answer is the database's current provider, none exactly when it has none, and a stale local id is cleared; other applications are untouched |
| Versions.ParseU32 | src-tauri/src/commands/update.rs:9-16 | a component parses only from a non-empty string other than a lone plus sign, and always fits in 32 bits |
| Versions.KeepParsed | src-tauri/src/commands/update.rs:9-16 | the parsed components, dropping the ones that do not parse, each within 32 bits |
| Versions.NotNewerAt | src-tauri/src/commands/update.rs:18-27 | a candidate that agrees up to a position and is smaller there is not newer |
| Versions.NotNewerEqual | src-tauri/src/commands/update.rs:18-27 | a candidate equal at every position, counting missing ones as zero, is not newer |
| Versions.CompareVersions | src-tauri/src/commands/update.rs:8-28 | the loop answers true exactly when the candidate is newer by the component order |
| Versions.NewerIrreflexive | src-tauri/src/commands/update.rs:8-28 | no version is newer than itself |
| Versions.NewerAsymmetric | src-tauri/src/commands/update.rs:8-28 | if one version is newer than another, the reverse does not hold |
| Versions.NewerTransitive | src-tauri/src/commands/update.rs:8-28 | newer-than is transitive |
| Versions.TrailingZero | src-tauri/src/commands/update.rs:18-27 | a trailing .0 makes no difference either way |
| Versions.NumericOrder | src-tauri/src/commands/update.rs:8-28 | components compare as numbers, so 1.10 is newer than 1.9 |
| Versions.UpdateCheck | src-tauri/src/commands/update.rs:189-209 | a missing or unreadable version file never blocks the update; a readable one passes exactly when its trimmed version is newer than the running one, and is refused with the source's message otherwise |
| Versions.UpdateRefusesSameVersion | src-tauri/src/commands/update.rs:189-209 | a version file naming the current version, with or without a trailing .0, blocks the update |
| Versions.UpdateNoDowngradeBack | src-tauri/src/commands/update.rs:189-209 | if updating from a to b is allowed, updating from b back to a is refused |
| Usage.ErrorMessage | src-tauri/src/services/provider/usage.rs:57-71 | a localised error shows its English text when the language is en and its Chinese text otherwise; any other error shows its display text |
| Usage.FormatUsageResult | src-tauri/src/services/provider/usage.rs:13-80 | a script result fails only when some item has the wrong format, with the data-format error; otherwise success and data are present exactly for a successful run, an array gives its items and a single value a one-item list, and a failed run reports its message |
| Usage.SingleAsArray | src-tauri/src/services/provider/usage.rs:32-49 | a single value formats exactly like a one-item array |
| Usage.FailedRunReported | src-tauri/src/services/provider/usage.rs:57-78 | a failed run is reported as unsuccessful with a message in the chosen language, Chinese by default |
| Usage.ScriptOf | src-tauri/src/services/provider/usage.rs:98-108 | the provider's usage script, when its metadata has one |
| Usage.CallOf | src-tauri/src/services/provider/usage.rs:117-125 | the script runs with its code and credentials, a 10-second default timeout and empty key and URL defaults |
| Usage.QueryPlan | src-tauri/src/services/provider/usage.rs:88-126 | an unknown provider, a missing script and a disabled script each fail with their own message; otherwise the script is run with its settings |
| Usage.QueryUsage | src-tauri/src/services/provider/usage.rs:83-137 | a failed plan is returned as the error; otherwise the result is the formatted run of the planned call |
| Usage.TestMatchesQuery | src-tauri/src/services/provider/usage.rs:141-162 | testing a provider's enabled script with its own settings gives the same result as querying it |
| Usage.DisabledNeverRuns | src-tauri/src/services/provider/usage.rs:109-115 | a disabled script is refused before it runs |
| GeminiProxy.ReadEnv | src-tauri/src/commands/env.rs:34 | a missing file reads as no pairs, an unreadable one is an error, and a present one reads as its pairs |
| GeminiProxy.GetGeminiProxyStatus | src-tauri/src/commands/env.rs:33-49 | fails exactly when the env file is unreadable; otherwise reports its pairs and reports the proxy on exactly when both keys hold the same non-blank value |
| GeminiProxy.ProxyUrl | src-tauri/src/commands/env.rs:60-62 | the proxy URL is http:// followed by host and port, 127.0.0.1 and 7890 by default |
| GeminiProxy.ProxyUrlNotBlank | src-tauri/src/commands/env.rs:60-62 | the proxy URL is never blank |
| GeminiProxy.WithProxyStatus | src-tauri/src/commands/env.rs:59-83 | after switching, the proxy reads as on exactly when it was switched on |
| GeminiProxy.WithProxyKeepsOthers | src-tauri/src/commands/env.rs:59-68 | switching never touches any other pair |
| GeminiProxy.WithProxyIdempotent | src-tauri/src/commands/env.rs:59-68 | switching twice the same way is the same as switching once |
| GeminiProxy.EnableThenDisable | src-tauri/src/commands/env.rs:59-68 | switching on and then off restores pairs that had no proxy keys |
| GeminiProxy.SetGeminiProxyEnabled | src-tauri/src/commands/env.rs:52-89 | succeeds exactly when the file reads and the write succeeds; on failure nothing changes; on success the file holds the switched pairs and the reported status agrees with the flag and with a fresh status read |
| InitStatus.StartupStatus.constructor | src-tauri/src/init_status.rs:12-14 | no init error is recorded and no migration success is pending |
| InitStatus.StartupStatus.SetInitError | src-tauri/src/init_status.rs:17-22 | the payload is recorded and the migration flag is untouched |
| InitStatus.StartupStatus.GetInitError | src-tauri/src/init_status.rs:24-26 | returns the recorded payload |
| InitStatus.StartupStatus.SetMigrationSuccess | src-tauri/src/init_status.rs:38-42 | the migration success is pending and the init error is untouched |
| InitStatus.StartupStatus.TakeMigrationSuccess | src-tauri/src/init_status.rs:45-53 | returns whether a success was pending and clears it |
| InitStatus.InitErrorRoundTrip | src-tauri/src/init_status.rs:60-69 | a payload set is read back, and reading it again gives it again |
| InitStatus.MigrationReportedOnce | src-tauri/src/init_status.rs:44-53 | a migration success is reported once and then no more |
| ClaudeModels.StrField | src-tauri/src/services/provider/mod.rs:566-585 | a key counts only when it holds a string, and then gives that string |
| ClaudeModels.NormalizeClaudeModelsInValue | src-tauri/src/services/provider/mod.rs:559-628 | the result is the normalised settings, and the changed flag is true exactly when they differ from the input |
| ClaudeModels.KeepsExistingDefaults | src-tauri/src/services/provider/mod.rs:587-620 | a default model key already present keeps its value |
| ClaudeModels.HaikuFallback | src-tauri/src/services/provider/mod.rs:587-606 | a missing Haiku default is taken from the small-fast model, else from the main model, else stays missing |
| ClaudeModels.SonnetOpusFallback | src-tauri/src/services/provider/mod.rs:590-620 | a missing Sonnet or Opus default is taken from the main model, else from the small-fast model, else stays missing |
| ClaudeModels.DropsOnlySmallFast | src-tauri/src/services/provider/mod.rs:559-628 | the small-fast key is removed, every other env key and every other top-level key stays |
| ClaudeModels.NormalizedIdempotent | src-tauri/src/services/provider/mod.rs:559-628 | normalising twice is the same as normalising once |
| Providers.WithId | src-tauri/src/provider.rs:53-75 | the provider has the given id, name, settings and website and every optional field empty |
| Providers.MetaOrDefault | src-tauri/src/provider.rs:53-75 | the provider's metadata, or the default metadata when it has none |
| Providers.WithoutEndpoints | src-tauri/src/database/dao/providers.rs:128-221 | the metadata with no custom endpoints and every other field kept |
| DeepLinkUtils.ValidateUrl | src-tauri/src/deeplink/utils.rs:10-22 | a URL passes exactly when it parses with the http or https scheme; every failure is an invalid-input error |
| DeepLinkUtils.StripApiPrefix | src-tauri/src/deeplink/utils.rs:93-96 | a leading api. is removed, otherwise a leading api-, otherwise the host is kept |
| DeepLinkUtils.InferHomepage | src-tauri/src/deeplink/utils.rs:88-99 | a homepage is inferred exactly when the endpoint parses and has a host, and it is https:// followed by the host without its API prefix |
| DeepLinkUtils.StripApiPrefixExamples | src-tauri/src/deeplink/tests.rs:101-114 | api.anthropic.com becomes anthropic.com, api-test.company.com becomes test.company.com, other hosts stay, and only one prefix is removed |
| DeepLinkUtils.Repeat | src-tauri/src/deeplink/utils.rs:54 | n copies of the character |
| DeepLinkUtils.Pad | src-tauri/src/deeplink/utils.rs:51-55 | the candidate extended with '=' to the next multiple of four, unchanged when already a multiple |
| DeepLinkUtils.AddPaddedFacts | src-tauri/src/deeplink/utils.rs:49-59 | adding padded variants keeps the list free of duplicates, keeps its prefix, and adds exactly the padded forms |
| DeepLinkUtils.CandidatesFacts | src-tauri/src/deeplink/utils.rs:31-59 | after trimming line breaks: the candidates have no duplicates and none is empty; with a space, the plus-restored form comes first and the original second; without one, the original comes first; a blank input has none; the rest are exactly the padded forms |
| DeepLinkUtils.ReplaceKeepsOut | src-tauri/src/deeplink/utils.rs:37 | a character that is neither inserted nor replaced stays absent |
| DeepLinkUtils.ReplaceNonEmpty | src-tauri/src/deeplink/utils.rs:37-38 | replacing in a non-empty string by a non-empty text gives a non-empty string |
| DeepLinkUtils.ReplaceBack | src-tauri/src/deeplink/utils.rs:35-41 | turning pluses into spaces and back restores a string without spaces |
| DeepLinkUtils.ReplaceCons | src-tauri/src/deeplink/utils.rs:37 | replacement goes character by character |
| DeepLinkUtils.BuildCandidates | src-tauri/src/deeplink/utils.rs:31-59 | the loops build exactly the candidate list described |
| DeepLinkUtils.PaddedStep | src-tauri/src/deeplink/utils.rs:50-58 | one loop step adds the padded candidate when it is new |
| DeepLinkUtils.FirstEngine | src-tauri/src/deeplink/utils.rs:63-72 | none exactly when every remaining engine refuses; otherwise the bytes of the first engine that accepts |
| DeepLinkUtils.FirstDecoded | src-tauri/src/deeplink/utils.rs:61-74 | none exactly when every engine refuses every candidate |
| DeepLinkUtils.DecodeBase64Param | src-tauri/src/deeplink/utils.rs:30-80 | the loops return exactly the first decoding in candidate and engine order, or the failure message |
| DeepLinkUtils.TryEngines | src-tauri/src/deeplink/utils.rs:63-73 | returns the first engine's bytes, and when none accepts the last error is the URL-safe unpadded engine's |
| DeepLinkUtils.B64Char | src-tauri/src/deeplink/utils.rs:63-68 | no alphabet character is a space, a line break or padding |
| DeepLinkUtils.Encode | src-tauri/src/deeplink/utils.rs:63-68 | the encoding has a length that is a multiple of four, is empty only for no bytes, and has no spaces or line breaks |
| DeepLinkUtils.SpacesRestored | src-tauri/src/deeplink/utils.rs:30-80 | standard Base64 decodes back to its bytes both as written and after its pluses became spaces |
| DeepLinkUtils.FirstCandidate | src-tauri/src/deeplink/utils.rs:35-41 | the plus-restored candidate is tried first, so its standard decoding wins |
| DeepLinkUtils.PlusAsSpaceExample | src-tauri/src/deeplink/tests.rs:296-313 | the parameter "Pj4 " decodes to the bytes of ">>>" |
| DeepLinkParser.EnabledParam | src-tauri/src/deeplink/parser.rs:123 | the flag is set exactly when the parameter is true or false, and then it is that value |
| DeepLinkParser.NormalizeIcon | src-tauri/src/deeplink/parser.rs:116-119 | the icon is trimmed and lower-cased, and dropped when blank |
| DeepLinkParser.NormalizeIconIdempotent | src-tauri/src/deeplink/parser.rs:116-119 | normalising an icon twice is the same as once |
| DeepLinkParser.LowerIdempotent | src-tauri/src/deeplink/parser.rs:118 | lower-casing twice is the same as once |
| DeepLinkParser.CheckUrlParam | src-tauri/src/deeplink/parser.rs:99-108 | an optional URL passes when absent, empty or valid |
| DeepLinkParser.ParseProvider | src-tauri/src/deeplink/parser.rs:71-150 | a provider link is accepted exactly when it names a supported app and a name and its URLs pass; the request copies every parameter, normalises the icon and flag, and leaves the other resources' fields empty; the missing-app and missing-name messages are exact |
| DeepLinkParser.ParsePrompt | src-tauri/src/deeplink/parser.rs:153-210 | a prompt link is accepted exactly when it names a supported app, a name and content; the request carries those, the description and the flag |
| DeepLinkParser.FirstInvalidApp | src-tauri/src/deeplink/parser.rs:224-231 | none exactly when every trimmed item is a supported app; otherwise the first unsupported trimmed item |
| DeepLinkParser.ParseMcp | src-tauri/src/deeplink/parser.rs:213-265 | an MCP link is accepted exactly when its apps list is valid and it has a config; the request carries them with the JSON format |
| DeepLinkParser.ParseSkill | src-tauri/src/deeplink/parser.rs:268-313 | a skill link is accepted exactly when its repo has the owner/name shape; the request carries it with the directory, branch and the Claude app |
| DeepLinkParser.CountPositive | src-tauri/src/deeplink/parser.rs:279 | a character occurs exactly when its count is positive |
| DeepLinkParser.RepoShape | src-tauri/src/deeplink/parser.rs:279-283 | a repo is accepted exactly when it has one slash, that is, exactly when it is an owner and a name without slashes |
| DeepLinkParser.ParseDeepLink | src-tauri/src/deeplink/parser.rs:15-68 | an accepted link has the ccswitch scheme, version v1, path /import and a supported resource, which the request records; each supported resource goes to its own parser and any other is refused by name |
| DeepLinkMcp.FoldAppsOk | src-tauri/src/deeplink/mcp.rs:179-192 | the loop succeeds exactly when every trimmed item names an application, failing with invalid input otherwise |
| DeepLinkMcp.FoldAppsFlags | src-tauri/src/deeplink/mcp.rs:179-192 | after the loop an application's flag is on exactly when it was on before or some item names it |
| DeepLinkMcp.McpAppsFacts | src-tauri/src/deeplink/mcp.rs:170-201 | an apps list is accepted exactly when every trimmed item names one of the five applications; exactly the named applications are flagged, at least one is, and failures are invalid input |
| DeepLinkMcp.ParseMcpApps | src-tauri/src/deeplink/mcp.rs:170-201 | the loop returns exactly the flags the list describes |
| DeepLinkMcp.LinkAppsAccepted | src-tauri/src/deeplink/mcp.rs:170-201 | a list the link parser accepts is accepted here and never flags Grok or Qwen |
| DeepLinkMcp.McpAppsPairExample | src-tauri/src/deeplink/tests.rs:320-333 | "claude,codex" flags exactly Claude and Codex |
| DeepLinkMcp.McpAppsSingleExamples | src-tauri/src/deeplink/tests.rs:320-333 | "gemini" flags exactly Gemini and "invalid" is refused |
| DeepLinkMcp.ImportPayload | src-tauri/src/deeplink/mcp.rs:44-89 | a payload exists only for an MCP request with a valid apps list and a config holding at least one server; it carries the parsed flags, never empty; failures are invalid input |
| DeepLinkMcp.Merged | src-tauri/src/deeplink/mcp.rs:98-145 | an existing server keeps every field and gains the link's flags; a new one is named after its id, carries the spec and flags and the imported tag; either way every flag of the link is on |
| DeepLinkMcp.AppsExt | src-tauri/src/deeplink/mcp.rs:104-120 | two flag sets that agree on every application are equal |
| DeepLinkMcp.MergedIdempotent | src-tauri/src/deeplink/mcp.rs:98-145 | importing the same server again with the same flags changes nothing |
| DeepLinkMcp.ImportedRows | src-tauri/src/deeplink/mcp.rs:98-160 | the rows after import are the old ids plus the imported ones |
| DeepLinkMcp.ImportedRowsRead | src-tauri/src/deeplink/mcp.rs:98-160 | each server in the config reads back as its merge with what was stored, and every other stored server is unchanged |
| DeepLinkMcp.FailedIds | src-tauri/src/deeplink/mcp.rs:153-156 | the ids of the failures, in order |
| DeepLinkMcp.DistinctSnoc | src-tauri/src/deeplink/mcp.rs:149 | appending a new id keeps the ids distinct |
| DeepLinkMcp.ReportOne | src-tauri/src/deeplink/mcp.rs:147-159 | each server is reported once, as imported or as failed |
| DeepLinkMcp.ImportedRowsStep | src-tauri/src/deeplink/mcp.rs:147 | one more upsert gives the rows for one more id |
| DeepLinkMcp.ImportMcpFromDeeplink | src-tauri/src/deeplink/mcp.rs:40-167 | fails exactly when the payload is invalid, with that error and nothing changed; otherwise every server is saved merged, only the MCP live files change, the count equals the imported ids, and every server is reported exactly once as imported or failed |
| DeepLinkMcp.ImportAll | src-tauri/src/deeplink/mcp.rs:98-160 | the loop saves every server merged, changes only the MCP live files, and reports each exactly once |
| DeepLinkMcp.MoveOne | src-tauri/src/deeplink/mcp.rs:98 | moving one id from the remaining to the done set keeps them a partition |
| DeepLinkMcp.Prepare | src-tauri/src/deeplink/mcp.rs:44-89 | returns exactly the payload the request describes |
| DeepLinkPrompt.Kept | src-tauri/src/deeplink/prompt.rs:53-56 | only letters, digits, dash and underscore remain, and every such character of the name does |
| DeepLinkPrompt.SanitizedName | src-tauri/src/deeplink/prompt.rs:53-57 | the sanitised name is no longer than the name and uses only lower-case letters, digits, dash and underscore |
| DeepLinkPrompt.KeptAll | src-tauri/src/deeplink/prompt.rs:53-56 | a name of kept characters only is unchanged |
| DeepLinkPrompt.SanitizedIdempotent | src-tauri/src/deeplink/prompt.rs:53-57 | sanitising twice is the same as once |
| DeepLinkPrompt.IdsDifferInTime | src-tauri/src/deeplink/prompt.rs:52-58 | the same name imported at different times gets different ids |
| DeepLinkPrompt.PromptToImport | src-tauri/src/deeplink/prompt.rs:20-72 | a prompt is built only for a prompt request with a known app, a name and content that decodes as Base64 and then UTF-8; it has the time-stamped id, the name, the decoded content and the description, and starts disabled; failures are invalid input |
| DeepLinkPrompt.CheckPromptRequest | src-tauri/src/deeplink/prompt.rs:20-72 | returns exactly the prompt the request describes |
| DeepLinkPrompt.ImportPromptFromDeeplink | src-tauri/src/deeplink/prompt.rs:15-86 | fails exactly when the request is invalid, changing nothing; otherwise returns the new id and stores the prompt disabled, or, when the link asks, enables it as the prompt service does; other applications are unchanged |

## Left out

- src-tauri/src/app_config.rs is not part of this model; `AppType`, `McpApps`, `McpServer` and the multi-app config are modelled from their uses in the other files.
- src-tauri/src/database/dao/prompts.rs and the settings DAO are not part of this model; their tables are modelled as maps in the `Database` class with the behaviour the services rely on.
- src-tauri/src/codex_config.rs, src-tauri/src/claude_mcp.rs and src-tauri/src/gemini_mcp.rs are not part of this model; the live files they read and write are modelled as values in `LiveFiles.Files`.
- src-tauri/src/mcp/validation.rs is not part of this model; `validate_server_spec` is a predicate parameter of the MCP operations.
- src-tauri/src/database/mod.rs is not part of this model; `SCHEMA_VERSION` is fixed to 1 (as src-tauri/src/database/test_v1_version.rs expects) and `DB_BACKUP_RETAIN` is a parameter.
- SQLite itself (SQL execution, `PRAGMA`, the Backup API, foreign-key cascades) is modelled by the `Database` class and its table maps, not executed.
- JSON and TOML text parsing and rendering, `toml_edit` comment and layout preservation, `url::Url` parsing, UTF-8 decoding and the Base64 engines (sections 4 and 5 of RFC 4648) are function parameters or are left out; the model works on parsed values.
- Unicode case folding and `is_alphanumeric` are modelled on ASCII only.
- DeepLinkUtils.Pad: pads by the number of characters, where the source counts bytes; the two agree on ASCII text.
- Floating-point values (`ValueRef::Real` in backup.rs and the float conversions in codex.rs) are kept as opaque values.
- Clock reads, timestamps and file modification times are parameters; logging is left out.
- Directory creation, `read_dir` errors, atomic-write mechanics and Unix file permissions are left out.
- Writes to the modelled live files (`LiveFiles.FileSystem`: the Claude, Codex, Gemini, Grok and Qwen files, the MCP files and the prompt files) and to backup folders (`Files.Folder`) never fail in the model, so the `?` write-error paths after them are absent; only the settings-store write (`Settings.SettingsStore.UpdateSettings` and the methods that call it, through `writeFails`/`clearFails`) and the Gemini proxy write (`GeminiProxy.SetGeminiProxyEnabled`) take a failure flag.
- WriteLiveSnapshot: a write of the live files cannot fail (`write_json_file`, `std::fs::write` and `write_grok_settings` errors in live.rs:109-148); only its validation errors and the Gemini hooks' errors are modelled. WriteGeminiLive and ProviderService.Switch, Add, Update and SyncCurrentToLive inherit this.
- BackupDatabaseFile: the backup-folder creation, the SQLite backup and the pruning never fail (backup.rs:129-176), so the backup always exists afterwards when the store file does; ImportSql inherits this for its safety backup.
- ValidateCodexSettings: the error for a `config` text that does not parse as TOML comes from `validate_config_toml` in src-tauri/src/codex_config.rs, which is not part of this model; it is a `Config` error with a text of the model's own.
- Errors of file reads and of JSON or TOML parsing carry texts of the model's own that name the file, not the `std::io` or parser messages, which come from outside the core.
- Where the source appends an outside message to its own text, the model keeps the source's own part and drops the rest: the parser detail after "解析 ~/.claude.json 失败" and "解析 Codex config.toml 失败", and the SQLite text after "Migrate provider failed: " (the model's wording there is its own). The UTF-8 decoder's reason in "文本字段不是有效的 UTF-8: " is a value carried by the text, not computed.
- SingleSyncedDoc: where `mcp_servers` exists but is not a table, the source's `doc["mcp_servers"][id] = …` (src-tauri/src/mcp/codex.rs:375) panics; the model returns the error `[mcp_servers] is not a table` and writes nothing. SyncSingleServerToCodex inherits this.
- ConfigService.GrokSync: when several enabled servers fail to convert, the source reports the first one in `HashMap` order; the model reports the error of some failing server, so GrokSync is a ghost function, and the methods that use it state only whether it succeeds.
- The iteration order of JSON objects and of `HashMap`s is not modelled; loops over them visit keys in an unspecified order and their contracts do not depend on it.
- Locks and concurrency (`lock_conn!`, the `RwLock`/`OnceLock` globals of the settings store and of init_status.rs) are left out; each is a single sequential owner modelled as a class.
- The asynchronous usage script runner (`usage_script::execute_usage_script`) is a parameter of the usage query.
- `perform_update` in src-tauri/src/commands/update.rs copies files and is left out; only its version comparison is modelled.
- ImportMcpFromDeeplink: the live-file effect of its upserts is stated as a frame only: the MCP files alone change (`Touched` over every application); which entries each file holds afterwards is not stated, because a later upsert of the same batch rewrites the same files. The store rows and the report are stated exactly. ImportAll states the same.
- SQLite and DAO errors are not modelled: every store read and write through the `Database` class succeeds (including `get_all_mcp_servers`, `upsert_prompt`, `enable_prompt`, the provider and settings DAOs and the backup's table copies), except the foreign-key failure of `Store.Database.AddCustomEndpoint` when the provider row is missing and the rejected provider INSERT of the legacy migration (see Findings). The MCP DAO's `enabled_grok` column, which a version 1 store lacks, is also a Findings row; the store model runs the corrected table, so `get_all_mcp_servers` and `save_mcp_server` succeed.
- CurrentProviderOf and WithCurrentProvider: the model adds a Grok current-provider slot to the settings record, which `get_current_provider`/`set_current_provider` (src-tauri/src/settings.rs:261-286) and the record lack although the rest of the code treats Grok as an application; every application then has a slot, and switching a Grok provider records it locally where the source's match has no Grok arm.
- Store.Database endpoints: the `provider_endpoints` rows are a set, so two identical rows (same provider, application, URL and added time), which the table's AUTOINCREMENT id (src-tauri/src/database/schema.rs:43) keeps apart, are one row in the model.
- Qwen has no MCP live file in the source; the model's MCP sync leaves Qwen untouched.
- GeminiProxy.GetGeminiProxyStatus: returns the parsed environment pairs rather than the serialised `.env` text.
- Tauri command wrappers, tray, windows, dialogs, auto-launch and the skill installer's network side are outside the core and left out.

## Findings

| source | as written | input that shows it | evidently intended | confidence | as-written member | corrected member |
|---|---|---|---|---|---|---|
| src-tauri/src/database/schema.rs:200-225 | the v0 to v1 column migration adds the per-application flags of `mcp_servers` but never `enabled_claude` | an existing `mcp_servers` table without an `enabled_claude` column | every flag column the V1 table declares is added when missing | not executed | Schema.MigrationAsWrittenLacksClaudeFlag | Schema.MigrationAddsClaudeFlag |
| src-tauri/src/database/migration.rs:84-87 | the providers INSERT names 16 columns, three of which the V1 `providers` table does not have | a legacy `config.json` holding one provider | the provider is inserted with the columns the table has and the migration succeeds, as src-tauri/src/database/tests.rs:229-274 expects | not executed | LegacyMigration.AsWrittenInsertRejected | LegacyMigration.MigrateFromJson |
| src-tauri/src/services/mcp.rs:195-280 | `import_from_*` imports into a fresh temporary config and saves those rows over the stored ones | a stored server with a custom name and Codex enabled that also appears in Claude's file | the import merges into the stored servers, keeping their fields and enabling the application | not executed | McpService.ImportOverwritesStored | McpService.MergedIsImport |
| src-tauri/src/mcp/codex.rs:147-203 | a legacy `headers` table is read after `http_headers` and replaces it | an entry with both `http_headers` and `headers` tables | `http_headers` takes priority and `headers` is the fallback | not executed | CodexConvert.LegacyHeadersOverride | CodexConvert.HttpHeadersPriority |
| src-tauri/src/mcp/codex.rs:140-143 | `return changed` on an entry of unknown type stops the import of that servers table, so its later entries are lost | a table whose first entry has `type = "ws"` followed by a valid stdio entry | the unknown entry is skipped and the rest are still imported | not executed | McpCodex.UnknownEntryStopsTable | McpCodex.UnknownEntryIgnored |
| src-tauri/src/database/dao/mcp.rs:13-94 | the SELECT and the INSERT OR REPLACE of the MCP DAO name an `enabled_grok` column that the version 1 `mcp_servers` table (src-tauri/src/database/schema.rs:56-68) does not have and no migration step adds | any `get_all_mcp_servers` or `save_mcp_server` call on a version 1 store | the `mcp_servers` table has an `enabled_grok` flag column like the other four, and both statements succeed | not executed | Store.McpDaoRejectedAsWritten | Store.McpDaoAcceptedCorrected |
