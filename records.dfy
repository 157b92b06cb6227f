/**
 * The records the store keeps besides providers: MCP servers with their
 * per-application flags, prompts, and skill state. Their fields are the
 * columns the data-access code reads and writes.
 */
module Records {
  import opened Wrappers
  import opened Values

  /** One enable flag per target application. */
  datatype McpApps = McpApps(claude: bool, codex: bool, gemini: bool, grok: bool, qwen: bool)
  {
    /** `is_enabled_for(app)` */
    function Get(app: AppType): bool
    {
      match app
      case Claude => claude
      case Codex => codex
      case Gemini => gemini
      case Grok => grok
      case Qwen => qwen
    }

    /** `set_enabled_for(app, v)`: that flag changes, every other flag stays. */
    function Set(app: AppType, v: bool): (r: McpApps)
      ensures r.Get(app) == v
      ensures forall a :: a != app ==> r.Get(a) == Get(a)
    {
      match app
      case Claude => this.(claude := v)
      case Codex => this.(codex := v)
      case Gemini => this.(gemini := v)
      case Grok => this.(grok := v)
      case Qwen => this.(qwen := v)
    }

    /** Flag-wise disjunction, as the deep-link import merges flags. */
    function Or(other: McpApps): (r: McpApps)
      ensures forall a :: r.Get(a) == (Get(a) || other.Get(a))
    {
      McpApps(claude || other.claude, codex || other.codex, gemini || other.gemini,
              grok || other.grok, qwen || other.qwen)
    }

    predicate IsEmpty()
    {
      !claude && !codex && !gemini && !grok && !qwen
    }

    /** The applications of `apps` whose flag is set, in the order of `apps`. */
    function EnabledAmong(apps: seq<AppType>): seq<AppType>
    {
      if apps == [] then [] else (if Get(apps[0]) then [apps[0]] else []) + EnabledAmong(apps[1..])
    }

    /** Filtering a list without repeats keeps exactly the enabled ones, without repeats. */
    lemma {:induction false} EnabledAmongFacts(apps: seq<AppType>)
      requires forall i, j :: 0 <= i < j < |apps| ==> apps[i] != apps[j]
      ensures forall a :: a in EnabledAmong(apps) <==> a in apps && Get(a)
      ensures forall i, j :: 0 <= i < j < |EnabledAmong(apps)| ==> EnabledAmong(apps)[i] != EnabledAmong(apps)[j]
      decreases |apps|
    {
      if apps != [] {
        EnabledAmongFacts(apps[1..]);
        assert apps[0] !in apps[1..];
      }
    }

    /** `enabled_apps()`: the enabled applications in declaration order. */
    function EnabledApps(): (r: seq<AppType>)
      ensures forall a :: a in r <==> Get(a)
      ensures forall i, j :: 0 <= i < j < |r| ==> r[i] != r[j]
    {
      EnabledAmongFacts(AllApps);
      EnabledAmong(AllApps)
    }
  }

  const NoApps: McpApps := McpApps(false, false, false, false, false)

  /** Exactly one application enabled: what an import of a new id gets. */
  function OnlyApp(app: AppType): (r: McpApps)
    ensures r.Get(app) && forall a :: a != app ==> !r.Get(a)
  {
    NoApps.Set(app, true)
  }

  /** An MCP server in the unified (v3.7.0+) form. */
  datatype McpServer = McpServer(
    id: string,
    name: string,
    server: Json,
    apps: McpApps,
    description: Option<string>,
    homepage: Option<string>,
    docs: Option<string>,
    tags: seq<string>)

  /** The record an importer creates for an id it has not seen: name = id, one app, no metadata. */
  function Imported(id: string, spec: Json, app: AppType): (s: McpServer)
    ensures s.id == id && s.name == id && s.server == spec && s.apps == OnlyApp(app)
    ensures s.description.None? && s.homepage.None? && s.docs.None? && s.tags == []
  {
    McpServer(id, id, spec, OnlyApp(app), None, None, None, [])
  }

  /** A system prompt kept for one application. Times are seconds. */
  datatype Prompt = Prompt(
    id: string,
    name: string,
    content: string,
    description: Option<string>,
    enabled: bool,
    createdAt: Option<int>,
    updatedAt: Option<int>)

  /** Whether a skill is installed, and since when (seconds). */
  datatype SkillState = SkillState(installed: bool, installedAt: int)

  /** A repository skills are discovered in. */
  datatype SkillRepo = SkillRepo(owner: string, name: string, branch: string, enabled: bool)
}
