/**
 * The live configuration files the five applications read, as one file-system
 * object. A file is absent, present but unreadable (an I/O or parse failure),
 * or present with its parsed content. JSON and TOML text parsing and rendering
 * are not modelled: a readable file holds its parsed value (the Codex
 * `config.toml` holds its text, which is parsed where the source parses it).
 */
module LiveFiles {
  import opened Wrappers
  import opened Values

  datatype FileState<T> = Absent | Unreadable | Present(value: T)
  {
    /** `path.exists()` */
    predicate Exists()
    {
      !Absent?
    }
  }

  /** Every live file the core reads or writes. */
  datatype Files = Files(
    /** `~/.claude/settings.json` */
    claudeSettings: FileState<Json>,
    /** `~/.claude.json`, whose `mcpServers` object holds Claude's MCP servers. */
    claudeMcp: FileState<Json>,
    /** `~/.codex/auth.json` */
    codexAuth: FileState<Json>,
    /** `~/.codex/config.toml`, as text. */
    codexConfig: FileState<string>,
    /** `~/.gemini/.env`, as its key/value pairs. */
    geminiEnv: FileState<map<string, string>>,
    /** `~/.gemini/settings.json`, whose `mcpServers` object holds Gemini's MCP servers. */
    geminiSettings: FileState<Json>,
    /** `~/.grok/user-settings.json` */
    grokSettings: FileState<Json>,
    /** `~/.qwen/settings.json` */
    qwenSettings: FileState<Json>)

  const NoFiles: Files := Files(Absent, Absent, Absent, Absent, Absent, Absent, Absent, Absent)

  /** The file system the live files live in; every write replaces one file. */
  class FileSystem {
    var files: Files

    constructor (files: Files)
      ensures this.files == files
    {
      this.files := files;
    }
  }

  /** The text parser of TOML documents (the `toml` crate), taken as given. */
  type TomlParser = string -> Option<TomlDoc>
}
