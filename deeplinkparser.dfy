/**
 * The `ccswitch://v1/import?resource=…` link parser (deeplink/parser.rs),
 * from the decomposed URL onward: the scheme, host and path gates, the
 * dispatch on `resource`, and the four per-resource validators that fill an
 * import request from the query parameters.
 */
module DeepLinkParser {
  import opened Wrappers
  import opened Text
  import opened DeepLinkUtils

  /**
   * What `Url::parse` makes of the link: its scheme, host, path and query
   * pairs collected into a map, or the reason it is no URL.
   */
  datatype ParsedLink =
    | Link(scheme: string, host: Option<string>, path: string, params: map<string, string>)
    | BadLink(reason: string)

  /** `DeepLinkImportRequest`: every field any of the four resources may fill. */
  datatype ImportRequest = ImportRequest(
    version: string,
    resource: string,
    app: Option<string>,
    name: Option<string>,
    enabled: Option<bool>,
    homepage: Option<string>,
    endpoint: Option<string>,
    apiKey: Option<string>,
    icon: Option<string>,
    model: Option<string>,
    notes: Option<string>,
    haikuModel: Option<string>,
    sonnetModel: Option<string>,
    opusModel: Option<string>,
    content: Option<string>,
    description: Option<string>,
    apps: Option<string>,
    repo: Option<string>,
    directory: Option<string>,
    branch: Option<string>,
    config: Option<string>,
    configFormat: Option<string>,
    configUrl: Option<string>)

  /** A request with only its version and resource set. */
  function Bare(version: string, resource: string): ImportRequest
  {
    ImportRequest(version, resource, None, None, None, None, None, None, None, None, None, None, None, None,
      None, None, None, None, None, None, None, None, None)
  }

  /** `params.get(key).cloned()` */
  function Param(params: map<string, string>, key: string): Option<string>
  {
    if key in params then Some(params[key]) else None
  }

  /** The applications a provider, prompt or mcp link may name. */
  const LinkApps: set<string> := {"claude", "codex", "gemini"}

  /** `str::parse::<bool>`: exactly `true` or `false`. */
  function ParseBool(s: string): Option<bool>
  {
    if s == "true" then Some(true) else if s == "false" then Some(false) else None
  }

  /** The `enabled` parameter; a value that is not a boolean counts as absent. */
  function EnabledParam(params: map<string, string>): (r: Option<bool>)
    ensures r.Some? <==> "enabled" in params && params["enabled"] in {"true", "false"}
    ensures r.Some? ==> (r.value <==> params["enabled"] == "true")
  {
    if "enabled" in params then ParseBool(params["enabled"]) else None
  }

  /** The `icon` parameter trimmed and lower-cased; blank counts as absent. */
  function NormalizeIcon(icon: Option<string>): (r: Option<string>)
    ensures r.Some? <==> icon.Some? && Trim(icon.value) != ""
    ensures r.Some? ==> r.value == ToLower(Trim(icon.value))
  {
    match icon
    case None => None
    case Some(v) => var t := ToLower(Trim(v)); if t == "" then None else Some(t)
  }

  /** Normalising an icon name twice changes nothing more. */
  lemma NormalizeIconIdempotent(icon: Option<string>)
    ensures NormalizeIcon(NormalizeIcon(icon)) == NormalizeIcon(icon)
  {
    if icon.Some? && Trim(icon.value) != "" {
      var u := Trim(icon.value);
      var t := ToLower(u);
      TrimShape(icon.value);
      assert !IsWhitespace(t[0]) && !IsWhitespace(t[|t| - 1]);
      assert TrimStart(t) == t;
      assert TrimEnd(t) == t;
      assert Trim(t) == t;
      LowerIdempotent(u);
      assert ToLower(Trim(t)) == t;
      assert NormalizeIcon(icon) == Some(t);
      assert NormalizeIcon(Some(t)) == Some(t);
    }
  }

  /** Lower-casing twice is lower-casing once. */
  lemma LowerIdempotent(s: string)
    ensures ToLower(ToLower(s)) == ToLower(s)
  {
    assert forall i :: 0 <= i < |s| ==> LowerChar(LowerChar(s[i])) == LowerChar(s[i]);
  }

  /** A URL parameter given and non-empty must be an http(s) URL. */
  function CheckUrlParam(value: Option<string>, field: string, parse: UrlParser): (r: Result<()>)
    ensures r.Ok? <==> value.None? || value.value == "" || ValidateUrl(value.value, field, parse).Ok?
  {
    if value.Some? && value.value != "" then ValidateUrl(value.value, field, parse) else Ok(())
  }

  /** `parse_provider_deeplink` */
  function ParseProvider(params: map<string, string>, version: string, resource: string, parse: UrlParser): (r: Result<ImportRequest>)
    ensures r.Ok? <==>
      "app" in params && params["app"] in LinkApps && "name" in params &&
      CheckUrlParam(Param(params, "homepage"), "homepage", parse).Ok? &&
      CheckUrlParam(Param(params, "endpoint"), "endpoint", parse).Ok?
    ensures r.Ok? ==> var q := r.value;
      q.version == version && q.resource == resource &&
      q.app == Some(params["app"]) && q.name == Some(params["name"]) &&
      q.homepage == Param(params, "homepage") && q.endpoint == Param(params, "endpoint") &&
      q.apiKey == Param(params, "apiKey") && q.model == Param(params, "model") &&
      q.notes == Param(params, "notes") && q.haikuModel == Param(params, "haikuModel") &&
      q.sonnetModel == Param(params, "sonnetModel") && q.opusModel == Param(params, "opusModel") &&
      q.icon == NormalizeIcon(Param(params, "icon")) && q.enabled == EnabledParam(params) &&
      q.config == Param(params, "config") && q.configFormat == Param(params, "configFormat") &&
      q.configUrl == Param(params, "configUrl") &&
      q.content.None? && q.description.None? && q.apps.None? && q.repo.None? &&
      q.directory.None? && q.branch.None?
    ensures "app" !in params ==> r == Err(InvalidInput("Missing 'app' parameter"))
    ensures "app" in params && params["app"] in LinkApps && "name" !in params ==>
      r == Err(InvalidInput("Missing 'name' parameter"))
  {
    if "app" !in params then Err(InvalidInput("Missing 'app' parameter"))
    else
      var app := params["app"];
      if app != "claude" && app != "codex" && app != "gemini" then
        Err(InvalidInput("Invalid app type: must be 'claude', 'codex', or 'gemini', got '" + app + "'"))
      else if "name" !in params then Err(InvalidInput("Missing 'name' parameter"))
      else
        var homepage := Param(params, "homepage");
        var endpoint := Param(params, "endpoint");
        var hp := CheckUrlParam(homepage, "homepage", parse);
        if hp.Err? then Err(hp.error)
        else
          var ep := CheckUrlParam(endpoint, "endpoint", parse);
          if ep.Err? then Err(ep.error)
          else
            Ok(Bare(version, resource).(
              app := Some(app), name := Some(params["name"]), enabled := EnabledParam(params),
              homepage := homepage, endpoint := endpoint, apiKey := Param(params, "apiKey"),
              icon := NormalizeIcon(Param(params, "icon")), model := Param(params, "model"),
              notes := Param(params, "notes"), haikuModel := Param(params, "haikuModel"),
              sonnetModel := Param(params, "sonnetModel"), opusModel := Param(params, "opusModel"),
              config := Param(params, "config"), configFormat := Param(params, "configFormat"),
              configUrl := Param(params, "configUrl")))
  }

  /** `parse_prompt_deeplink` */
  function ParsePrompt(params: map<string, string>, version: string, resource: string): (r: Result<ImportRequest>)
    ensures r.Ok? <==> "app" in params && params["app"] in LinkApps && "name" in params && "content" in params
    ensures r.Ok? ==> r.value == Bare(version, resource).(
      app := Some(params["app"]), name := Some(params["name"]), content := Some(params["content"]),
      description := Param(params, "description"), enabled := EnabledParam(params))
    ensures "app" !in params ==> r == Err(InvalidInput("Missing 'app' parameter for prompt"))
  {
    if "app" !in params then Err(InvalidInput("Missing 'app' parameter for prompt"))
    else
      var app := params["app"];
      if app != "claude" && app != "codex" && app != "gemini" then
        Err(InvalidInput("Invalid app type: must be 'claude', 'codex', or 'gemini', got '" + app + "'"))
      else if "name" !in params then Err(InvalidInput("Missing 'name' parameter for prompt"))
      else if "content" !in params then Err(InvalidInput("Missing 'content' parameter for prompt"))
      else
        Ok(Bare(version, resource).(
          app := Some(app), name := Some(params["name"]), content := Some(params["content"]),
          description := Param(params, "description"), enabled := EnabledParam(params)))
  }

  /** The first comma-separated item, trimmed, that is not one of the link applications. */
  function FirstInvalidApp(items: seq<string>): (r: Option<string>)
    ensures r.None? <==> forall i :: 0 <= i < |items| ==> Trim(items[i]) in LinkApps
    ensures r.Some? ==> r.value !in LinkApps && exists i :: 0 <= i < |items| && r.value == Trim(items[i])
  {
    if items == [] then None
    else if Trim(items[0]) !in LinkApps then Some(Trim(items[0]))
    else
      var rest := FirstInvalidApp(items[1..]);
      assert forall i :: 1 <= i < |items| ==> items[i] == items[1..][i - 1];
      rest
  }

  /** Every comma-separated item of an `apps` list names a link application. */
  predicate AppsListValid(apps: string)
  {
    forall item :: item in Split(apps, ',') ==> Trim(item) in LinkApps
  }

  /** `parse_mcp_deeplink` */
  function ParseMcp(params: map<string, string>, version: string, resource: string): (r: Result<ImportRequest>)
    ensures r.Ok? <==> "apps" in params && AppsListValid(params["apps"]) && "config" in params
    ensures r.Ok? ==> r.value == Bare(version, resource).(
      apps := Some(params["apps"]), enabled := EnabledParam(params),
      config := Some(params["config"]), configFormat := Some("json"))
  {
    if "apps" !in params then Err(InvalidInput("Missing 'apps' parameter for MCP"))
    else
      var apps := params["apps"];
      var bad := FirstInvalidApp(Split(apps, ','));
      if bad.Some? then
        Err(InvalidInput("Invalid app in 'apps': must be 'claude', 'codex', or 'gemini', got '" + bad.value + "'"))
      else if "config" !in params then Err(InvalidInput("Missing 'config' parameter for MCP"))
      else
        Ok(Bare(version, resource).(
          apps := Some(apps), enabled := EnabledParam(params),
          config := Some(params["config"]), configFormat := Some("json")))
  }

  /** The `owner/name` check as written: a `/` occurs and splitting on `/` gives two pieces. */
  predicate RepoShapeOk(repo: string)
  {
    '/' in repo && |Split(repo, '/')| == 2
  }

  /** `parse_skill_deeplink`: skills are for Claude only. */
  function ParseSkill(params: map<string, string>, version: string, resource: string): (r: Result<ImportRequest>)
    ensures r.Ok? <==> "repo" in params && RepoShapeOk(params["repo"])
    ensures r.Ok? ==> r.value == Bare(version, resource).(
      repo := Some(params["repo"]), directory := Param(params, "directory"),
      branch := Param(params, "branch"), app := Some("claude"))
  {
    if "repo" !in params then Err(InvalidInput("Missing 'repo' parameter for skill"))
    else
      var repo := params["repo"];
      if !('/' in repo) || |Split(repo, '/')| != 2 then
        Err(InvalidInput("Invalid repo format: expected 'owner/name', got '" + repo + "'"))
      else
        Ok(Bare(version, resource).(
          repo := Some(repo), directory := Param(params, "directory"),
          branch := Param(params, "branch"), app := Some("claude")))
  }

  /** A text holds a character exactly when it counts at least one. */
  lemma {:induction false} CountPositive(s: string, c: char)
    ensures c in s <==> CountChar(s, c) > 0
  {
    if s != [] {
      CountPositive(s[1..], c);
      assert c in s <==> s[0] == c || c in s[1..];
    }
  }

  /**
   * The repo check accepts exactly the texts with one `/`, which are an owner
   * and a name, neither holding a `/` (either may be empty).
   */
  lemma RepoShape(repo: string)
    ensures RepoShapeOk(repo) <==> CountChar(repo, '/') == 1
    ensures RepoShapeOk(repo) <==> exists owner, name :: '/' !in owner && '/' !in name && repo == owner + "/" + name
  {
    SplitCount(repo, '/');
    CountPositive(repo, '/');
    if RepoShapeOk(repo) {
      var parts := Split(repo, '/');
      JoinSplit(repo, '/');
      assert parts[1..] == [parts[1]];
      assert repo == parts[0] + "/" + parts[1];
    }
    if exists owner, name :: '/' !in owner && '/' !in name && repo == owner + "/" + name {
      var owner, name :| '/' !in owner && '/' !in name && repo == owner + "/" + name;
      NoCharCount(owner, '/');
      NoCharCount(name, '/');
      CountAppend(owner, "/" + name, '/');
      CountAppend("/", name, '/');
    }
  }

  /** The resources a link may import. */
  const Resources: set<string> := {"provider", "prompt", "mcp", "skill"}

  /** `parse_deeplink_url`: the gates on scheme, version and path, then the per-resource parser. */
  function ParseDeepLink(link: ParsedLink, parse: UrlParser): (r: Result<ImportRequest>)
    ensures r.Ok? ==>
      link.Link? && link.scheme == "ccswitch" && link.host == Some("v1") && link.path == "/import" &&
      "resource" in link.params && link.params["resource"] in Resources &&
      r.value.version == "v1" && r.value.resource == link.params["resource"]
    ensures (link.Link? && link.scheme == "ccswitch" && link.host == Some("v1") && link.path == "/import" &&
      "resource" in link.params) ==>
      var p := link.params;
      r == match p["resource"]
        case "provider" => ParseProvider(p, "v1", "provider", parse)
        case "prompt" => ParsePrompt(p, "v1", "prompt")
        case "mcp" => ParseMcp(p, "v1", "mcp")
        case "skill" => ParseSkill(p, "v1", "skill")
        case other => Err(InvalidInput("Unsupported resource type: " + other))
  {
    match link
    case BadLink(reason) => Err(InvalidInput("Invalid deep link URL: " + reason))
    case Link(scheme, host, path, params) =>
      if scheme != "ccswitch" then Err(InvalidInput("Invalid scheme: expected 'ccswitch', got '" + scheme + "'"))
      else if host.None? then Err(InvalidInput("Missing version in URL host"))
      else if host.value != "v1" then Err(InvalidInput("Unsupported protocol version: " + host.value))
      else if path != "/import" then Err(InvalidInput("Invalid path: expected '/import', got '" + path + "'"))
      else if "resource" !in params then Err(InvalidInput("Missing 'resource' parameter"))
      else
        var resource := params["resource"];
        match resource
        case "provider" => ParseProvider(params, host.value, resource, parse)
        case "prompt" => ParsePrompt(params, host.value, resource)
        case "mcp" => ParseMcp(params, host.value, resource)
        case "skill" => ParseSkill(params, host.value, resource)
        case _ => Err(InvalidInput("Unsupported resource type: " + resource))
  }
}
