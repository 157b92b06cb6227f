/**
 * The Gemini proxy switch (commands/env.rs): the proxy counts as enabled when
 * `~/.gemini/.env` sets `https_proxy` and `http_proxy` to the same non-blank
 * value (compared trimmed); switching it on writes both keys, switching it off
 * removes both, and every other key of the file is kept.
 */
module GeminiProxy {
  import opened Wrappers
  import opened Text
  import opened LiveFiles

  const HttpsProxy: string := "https_proxy"
  const HttpProxy: string := "http_proxy"

  /** The host and port used when the caller gives none. */
  const DefaultHost: string := "127.0.0.1"
  const DefaultPort: string := "7890"

  /** `GeminiEnvProxyStatus`; the serialised `.env` text is represented by the pairs it serialises. */
  datatype ProxyStatus = ProxyStatus(enabled: bool, env: map<string, string>)

  /** Both proxy keys are set, to the same value once trimmed, and that value is not blank. */
  predicate ProxyEnabled(env: map<string, string>)
  {
    HttpsProxy in env && HttpProxy in env
    && Trim(env[HttpsProxy]) != [] && Trim(env[HttpsProxy]) == Trim(env[HttpProxy])
  }

  /** The `.env` pairs as `read_gemini_env` yields them: a missing file has none. */
  function ReadEnv(f: FileState<map<string, string>>): (r: Result<map<string, string>>)
    ensures r.Err? <==> f.Unreadable?
    ensures f.Present? ==> r == Ok(f.value)
    ensures f.Absent? ==> r == Ok(map[])
  {
    match f
    case Absent => Ok(map[])
    case Unreadable => Err(Io("cannot read ~/.gemini/.env"))
    case Present(env) => Ok(env)
  }

  /** `get_gemini_proxy_status` */
  function GetGeminiProxyStatus(files: Files): (r: Result<ProxyStatus>)
    ensures r.Err? <==> files.geminiEnv.Unreadable?
    ensures r.Ok? ==> r.value.env == ReadEnv(files.geminiEnv).value && (r.value.enabled <==> ProxyEnabled(r.value.env))
    ensures r.Ok? && r.value.enabled ==> HttpsProxy in r.value.env && HttpProxy in r.value.env && !IsBlank(r.value.env[HttpProxy])
    ensures r.Ok? && (HttpsProxy !in r.value.env || HttpProxy !in r.value.env) ==> !r.value.enabled
  {
    match ReadEnv(files.geminiEnv)
    case Err(e) => Err(e)
    case Ok(env) => Ok(ProxyStatus(ProxyEnabled(env), env))
  }

  /** `format!("http://{host}:{port}")` with the defaults filled in. */
  function ProxyUrl(host: Option<string>, port: Option<string>): (url: string)
    ensures |url| > 7 && url[..7] == "http://"
    ensures url[7..] == host.UnwrapOr(DefaultHost) + ":" + port.UnwrapOr(DefaultPort)
  {
    "http://" + host.UnwrapOr(DefaultHost) + ":" + port.UnwrapOr(DefaultPort)
  }

  /** The pairs after switching the proxy on (both keys set to the URL) or off (both keys removed). */
  function WithProxy(env: map<string, string>, enabled: bool, host: Option<string>, port: Option<string>): map<string, string>
  {
    if enabled then env[HttpsProxy := ProxyUrl(host, port)][HttpProxy := ProxyUrl(host, port)]
    else env - {HttpsProxy, HttpProxy}
  }

  /** The proxy URL always reads as set: it starts with `h`, so it is never blank. */
  lemma ProxyUrlNotBlank(host: Option<string>, port: Option<string>)
    ensures Trim(ProxyUrl(host, port)) != []
  {
    var url := ProxyUrl(host, port);
    assert url[0] == 'h';
    BlankIffAllWhitespace(url);
  }

  /** After switching, the status reports exactly what was asked for. */
  lemma WithProxyStatus(env: map<string, string>, enabled: bool, host: Option<string>, port: Option<string>)
    ensures ProxyEnabled(WithProxy(env, enabled, host, port)) == enabled
  {
    if enabled {
      ProxyUrlNotBlank(host, port);
    }
  }

  /** Switching touches the two proxy keys only. */
  lemma WithProxyKeepsOthers(env: map<string, string>, enabled: bool, host: Option<string>, port: Option<string>, k: string)
    requires k != HttpsProxy && k != HttpProxy
    ensures k in WithProxy(env, enabled, host, port) <==> k in env
    ensures k in env ==> WithProxy(env, enabled, host, port)[k] == env[k]
  {
  }

  /** Switching the same way twice is switching once. */
  lemma WithProxyIdempotent(env: map<string, string>, enabled: bool, host: Option<string>, port: Option<string>)
    ensures WithProxy(WithProxy(env, enabled, host, port), enabled, host, port) == WithProxy(env, enabled, host, port)
  {
  }

  /** Switching the proxy on and then off gives back a file that had no proxy keys. */
  lemma EnableThenDisable(env: map<string, string>, host: Option<string>, port: Option<string>)
    requires HttpsProxy !in env && HttpProxy !in env
    ensures WithProxy(WithProxy(env, true, host, port), false, None, None) == env
  {
    var on := WithProxy(env, true, host, port);
    assert on.Keys - {HttpsProxy, HttpProxy} == env.Keys;
  }

  /**
   * `set_gemini_proxy_enabled`: read the pairs (an unreadable file is an
   * error), set or remove both proxy keys, write the file atomically
   * (`writeFails` is the outcome of that write, which changes nothing when it
   * fails) and report the status read back from the new pairs.
   */
  method SetGeminiProxyEnabled(fs: FileSystem, enabled: bool, host: Option<string>, port: Option<string>, writeFails: bool)
    returns (r: Result<ProxyStatus>)
    modifies fs
    ensures r.Ok? <==> !old(fs.files.geminiEnv).Unreadable? && !writeFails
    ensures r.Err? ==> fs.files == old(fs.files)
    ensures r.Ok? ==> r.value.env == WithProxy(ReadEnv(old(fs.files.geminiEnv)).value, enabled, host, port)
    ensures r.Ok? ==> fs.files == old(fs.files).(geminiEnv := Present(r.value.env))
    ensures r.Ok? ==> r.value.enabled == enabled && GetGeminiProxyStatus(fs.files) == r
  {
    var read := ReadEnv(fs.files.geminiEnv);
    if read.Err? {
      return Err(read.error);
    }
    var env := read.value;
    if enabled {
      var value := ProxyUrl(host, port);
      env := env[HttpsProxy := value];
      env := env[HttpProxy := value];
    } else {
      env := env - {HttpsProxy};
      env := env - {HttpProxy};
    }
    assert env == WithProxy(read.value, enabled, host, port);
    if writeFails {
      return Err(Io("cannot write ~/.gemini/.env"));
    }
    fs.files := fs.files.(geminiEnv := Present(env));
    WithProxyStatus(read.value, enabled, host, port);
    r := Ok(ProxyStatus(ProxyEnabled(env), env));
  }
}
