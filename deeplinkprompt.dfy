/**
 * Importing a prompt from a deep link (deeplink/prompt.rs): the request's
 * fields are checked, the Base64 content decoded, an id made from the name
 * and the time, and the prompt saved disabled; it is enabled afterwards only
 * when the link asks for it.
 *
 * The clock is a parameter: `millis` is the import time in milliseconds
 * (the id and the timestamps), `now` and `stamp` the time the enabling step
 * reads (see the prompt service).
 */
module DeepLinkPrompt {
  import opened Wrappers
  import opened Values
  import opened Records
  import opened Text
  import opened Store
  import opened LiveFiles
  import opened PromptService
  import opened DeepLinkUtils
  import opened DeepLinkParser

  /** The characters an id keeps from a name: letters and digits, `-` and `_` (ASCII only here). */
  predicate KeptInId(c: char)
  {
    'a' <= c <= 'z' || 'A' <= c <= 'Z' || '0' <= c <= '9' || c == '-' || c == '_'
  }

  /** The characters an imported prompt's id is made of, before the time. */
  predicate IdChar(c: char)
  {
    'a' <= c <= 'z' || '0' <= c <= '9' || c == '-' || c == '_'
  }

  /** The name's kept characters, in order. */
  function Kept(name: string): (r: string)
    ensures |r| <= |name|
    ensures forall i :: 0 <= i < |r| ==> KeptInId(r[i])
    ensures forall c :: c in name && KeptInId(c) ==> c in r
  {
    if name == [] then []
    else (if KeptInId(name[0]) then [name[0]] else []) + Kept(name[1..])
  }

  /** The name's letters, digits, `-` and `_`, lower-cased. */
  function SanitizedName(name: string): (r: string)
    ensures |r| <= |name|
    ensures forall i :: 0 <= i < |r| ==> IdChar(r[i])
  {
    ToLower(Kept(name))
  }

  /** Keeping only kept characters keeps them all. */
  lemma {:induction false} KeptAll(s: string)
    requires forall i :: 0 <= i < |s| ==> KeptInId(s[i])
    ensures Kept(s) == s
  {
    if s != [] {
      KeptAll(s[1..]);
    }
  }

  /** Sanitising a sanitised name changes nothing. */
  lemma SanitizedIdempotent(name: string)
    ensures SanitizedName(SanitizedName(name)) == SanitizedName(name)
  {
    var s := SanitizedName(name);
    KeptAll(s);
    assert forall i :: 0 <= i < |s| ==> LowerChar(s[i]) == s[i];
  }

  /** `{sanitized_name}-{timestamp}` */
  function ImportedPromptId(name: string, millis: int): string
  {
    SanitizedName(name) + "-" + IntToString(millis)
  }

  /** Two imports of one name at different times get different ids. */
  lemma IdsDifferInTime(name: string, t1: int, t2: int)
    requires t1 != t2
    ensures ImportedPromptId(name, t1) != ImportedPromptId(name, t2)
  {
    var head := SanitizedName(name) + "-";
    IntRoundTrip(t1);
    IntRoundTrip(t2);
    assert ImportedPromptId(name, t1)[|head|..] == IntToString(t1);
    assert ImportedPromptId(name, t2)[|head|..] == IntToString(t2);
  }

  /**
   * The checks of `import_prompt_from_deeplink` and the prompt they build: the
   * resource, the `app` and `name` fields, the application, the `content`
   * field decoded from Base64 and then as UTF-8. The prompt is disabled.
   */
  function PromptToImport(q: ImportRequest, decode: Decoder, utf8: Utf8Decoder, millis: int): (r: Result<(AppType, Prompt)>)
    ensures r.Ok? ==> (q.resource == "prompt" && q.app.Some? && q.name.Some? && q.content.Some? &&
      ParseApp(q.app.value) == Some(r.value.0) &&
      DecodeParam("content", q.content.value, decode).Ok? &&
      utf8(DecodeParam("content", q.content.value, decode).value) == Read(r.value.1.content))
    ensures r.Ok? ==> var p := r.value.1;
      p.id == ImportedPromptId(q.name.value, millis) && p.name == q.name.value &&
      p.description == q.description && !p.enabled && p.createdAt == Some(millis) && p.updatedAt == Some(millis)
    ensures r.Err? ==> r.error.InvalidInput?
  {
    if q.resource != "prompt" then Err(InvalidInput("Expected prompt resource, got '" + q.resource + "'"))
    else if q.app.None? then Err(InvalidInput("Missing 'app' field for prompt"))
    else if q.name.None? then Err(InvalidInput("Missing 'name' field for prompt"))
    else
      var app := ParseApp(q.app.value);
      if app.None? then Err(InvalidInput("Invalid app type: " + q.app.value))
      else if q.content.None? then Err(InvalidInput("Missing 'content' field for prompt"))
      else
        var bytes := DecodeParam("content", q.content.value, decode);
        if bytes.Err? then Err(bytes.error)
        else match utf8(bytes.value)
          case Unreadable(e) => Err(InvalidInput("Invalid UTF-8 in content: " + e))
          case Read(content) =>
            var id := ImportedPromptId(q.name.value, millis);
            Ok((app.value, Prompt(id, q.name.value, content, q.description, false, Some(millis), Some(millis))))
  }

  /** The checks in the source's order, with the decoding loop of `decode_base64_param`. */
  method CheckPromptRequest(q: ImportRequest, decode: Decoder, utf8: Utf8Decoder, millis: int)
    returns (r: Result<(AppType, Prompt)>)
    ensures r == PromptToImport(q, decode, utf8, millis)
  {
    if q.resource != "prompt" {
      return Err(InvalidInput("Expected prompt resource, got '" + q.resource + "'"));
    }
    if q.app.None? {
      return Err(InvalidInput("Missing 'app' field for prompt"));
    }
    if q.name.None? {
      return Err(InvalidInput("Missing 'name' field for prompt"));
    }
    var app := ParseApp(q.app.value);
    if app.None? {
      return Err(InvalidInput("Invalid app type: " + q.app.value));
    }
    if q.content.None? {
      return Err(InvalidInput("Missing 'content' field for prompt"));
    }
    var bytes := DecodeBase64Param("content", q.content.value, decode);
    if bytes.Err? {
      return Err(bytes.error);
    }
    var content := utf8(bytes.value);
    if content.Unreadable? {
      return Err(InvalidInput("Invalid UTF-8 in content: " + content.reason));
    }
    var id := ImportedPromptId(q.name.value, millis);
    r := Ok((app.value, Prompt(id, q.name.value, content.value, q.description, false, Some(millis), Some(millis))));
  }

  /**
   * `import_prompt_from_deeplink`: a request that fails the checks changes
   * nothing; otherwise the prompt is saved disabled, then enabled (with the
   * backfill that enabling does) when `enabled` is `Some(true)`, and its id
   * returned. Enabling cannot fail here: the prompt was just saved.
   */
  method ImportPromptFromDeeplink(db: Database, pf: PromptFiles, q: ImportRequest, decode: Decoder,
                                  utf8: Utf8Decoder, millis: int, now: int, stamp: string)
    returns (r: Result<string>, ghost pick: Option<string>)
    modifies db, pf
    ensures var c := PromptToImport(q, decode, utf8, millis);
      (r.Err? <==> c.Err?) &&
      (r.Err? ==> r.error == c.error && db.NoTableChanged() && pf.files == old(pf.files)) &&
      (r.Ok? ==> (r.value == c.value.1.id && db.OnlyPromptTable() &&
        SameOtherApps(old(db.prompts), db.prompts, AppName(c.value.0))))
    ensures r.Ok? && q.enabled != Some(true) ==> var c := PromptToImport(q, decode, utf8, millis).value;
      AppPrompts(db.prompts, AppName(c.0)) == AppPrompts(old(db.prompts), AppName(c.0))[c.1.id := c.1] &&
      pf.files == old(pf.files)
    ensures r.Ok? && q.enabled == Some(true) ==> var c := PromptToImport(q, decode, utf8, millis).value;
      var saved := AppPrompts(old(db.prompts), AppName(c.0))[c.1.id := c.1];
      ValidPick(saved, pick) &&
      var b := Backfilled(saved, old(pf.FileOf(c.0)), pick, now, stamp);
      c.1.id in b &&
      AppPrompts(db.prompts, AppName(c.0)) == OnlyEnabled(b, c.1.id) &&
      pf.files == old(pf.files)[c.0 := Present(b[c.1.id].content)]
  {
    pick := None;
    var checked := CheckPromptRequest(q, decode, utf8, millis);
    if checked.Err? {
      return Err(checked.error), pick;
    }
    var (app, prompt) := checked.value;
    UpsertPrompt(db, pf, app, prompt);
    ghost var mid := db.prompts;
    if q.enabled == Some(true) {
      var enabled;
      enabled, pick := EnablePrompt(db, pf, app, prompt.id, now, stamp);
      SameOtherAppsTrans(old(db.prompts), mid, db.prompts, AppName(app));
    }
    r := Ok(prompt.id);
  }
}
