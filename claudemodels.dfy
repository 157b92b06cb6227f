/**
 * Claude model-key normalisation (services/provider/mod.rs,
 * `normalize_claude_models_in_value`): the legacy `ANTHROPIC_SMALL_FAST_MODEL`
 * key of a Claude settings `env` object is replaced by the three
 * `ANTHROPIC_DEFAULT_*_MODEL` keys, filled from the legacy key and
 * `ANTHROPIC_MODEL` where they are missing; a key already present is never
 * overwritten.
 */
module ClaudeModels {
  import opened Wrappers
  import opened Values

  const ModelKey: string := "ANTHROPIC_MODEL"
  const SmallFastKey: string := "ANTHROPIC_SMALL_FAST_MODEL"
  const HaikuKey: string := "ANTHROPIC_DEFAULT_HAIKU_MODEL"
  const SonnetKey: string := "ANTHROPIC_DEFAULT_SONNET_MODEL"
  const OpusKey: string := "ANTHROPIC_DEFAULT_OPUS_MODEL"

  /** `env.get(key).and_then(as_str)` */
  function StrField(env: map<string, Json>, key: string): (r: Option<string>)
    ensures r.Some? <==> key in env && env[key].JStr?
    ensures r.Some? ==> env[key] == JStr(r.value)
  {
    if key in env && env[key].JStr? then Some(env[key].s) else None
  }

  /** `a.or_else(|| b)` */
  function OrElse(a: Option<string>, b: Option<string>): Option<string>
  {
    if a.Some? then a else b
  }

  /** The key is inserted with the target value when it is missing and there is a target. */
  function FillMissing(env: map<string, Json>, key: string, target: Option<string>): map<string, Json>
  {
    if key !in env && target.Some? then env[key := JStr(target.value)] else env
  }

  /**
   * The `env` object after normalisation: HAIKU falls back to SMALL_FAST then
   * MODEL, SONNET and OPUS to MODEL then SMALL_FAST (both read before any
   * insertion), and SMALL_FAST is removed.
   */
  function NormalizedEnv(env: map<string, Json>): map<string, Json>
  {
    var model := StrField(env, ModelKey);
    var small := StrField(env, SmallFastKey);
    var e1 := FillMissing(env, HaikuKey, OrElse(small, model));
    var e2 := FillMissing(e1, SonnetKey, OrElse(model, small));
    var e3 := FillMissing(e2, OpusKey, OrElse(model, small));
    e3 - {SmallFastKey}
  }

  /** The settings hold an `env` object. */
  predicate HasEnv(settings: Json)
  {
    settings.JObj? && "env" in settings.fields && settings.fields["env"].JObj?
  }

  /** The settings after normalisation; settings without an `env` object are left as they are. */
  function Normalized(settings: Json): Json
  {
    if HasEnv(settings) then
      JObj(settings.fields["env" := JObj(NormalizedEnv(settings.fields["env"].fields))])
    else settings
  }

  /**
   * `normalize_claude_models_in_value`: the value becomes its normal form, and
   * the result reports whether a key was inserted or removed, which is exactly
   * whether the value changed.
   */
  method NormalizeClaudeModelsInValue(settings: Json) returns (out: Json, changed: bool)
    ensures out == Normalized(settings)
    ensures changed <==> out != settings
  {
    if !HasEnv(settings) {
      return settings, false;
    }
    var env := settings.fields["env"].fields;
    var model := StrField(env, ModelKey);
    var small := StrField(env, SmallFastKey);
    var haiku := StrField(env, HaikuKey);
    var sonnet := StrField(env, SonnetKey);
    var opus := StrField(env, OpusKey);
    var targetHaiku := OrElse(OrElse(haiku, small), model);
    var targetSonnet := OrElse(OrElse(sonnet, model), small);
    var targetOpus := OrElse(OrElse(opus, model), small);
    changed := false;
    ghost var inserted: set<string> := {};
    if HaikuKey !in env && targetHaiku.Some? {
      env := env[HaikuKey := JStr(targetHaiku.value)];
      changed := true;
      inserted := inserted + {HaikuKey};
    }
    if SonnetKey !in env && targetSonnet.Some? {
      env := env[SonnetKey := JStr(targetSonnet.value)];
      changed := true;
      inserted := inserted + {SonnetKey};
    }
    if OpusKey !in env && targetOpus.Some? {
      env := env[OpusKey := JStr(targetOpus.value)];
      changed := true;
      inserted := inserted + {OpusKey};
    }
    ghost var removed := SmallFastKey in env;
    if SmallFastKey in env {
      env := env - {SmallFastKey};
      changed := true;
    }
    var original := settings.fields["env"].fields;
    assert env == NormalizedEnv(original);
    out := JObj(settings.fields["env" := JObj(env)]);
    assert changed <==> inserted != {} || removed;
    if changed {
      if inserted != {} {
        var k :| k in inserted;
        assert k !in original && k in env;
      } else {
        assert SmallFastKey in original && SmallFastKey !in env;
      }
      assert out.fields["env"] != settings.fields["env"];
    } else {
      assert env == original;
    }
  }

  /** Existing `ANTHROPIC_DEFAULT_*` entries are never overwritten. */
  lemma KeepsExistingDefaults(settings: Json, key: string)
    requires HasEnv(settings) && key in {HaikuKey, SonnetKey, OpusKey} && key in settings.fields["env"].fields
    ensures HasEnv(Normalized(settings))
    ensures key in Normalized(settings).fields["env"].fields
    ensures Normalized(settings).fields["env"].fields[key] == settings.fields["env"].fields[key]
  {
  }

  /** A missing HAIKU key is filled from SMALL_FAST, and from MODEL when there is no SMALL_FAST. */
  lemma HaikuFallback(settings: Json)
    requires HasEnv(settings) && HaikuKey !in settings.fields["env"].fields
    ensures var env := settings.fields["env"].fields;
      var out := Normalized(settings).fields["env"].fields;
      (StrField(env, SmallFastKey).Some? ==> out[HaikuKey] == JStr(StrField(env, SmallFastKey).value)) &&
      (StrField(env, SmallFastKey).None? && StrField(env, ModelKey).Some? ==> out[HaikuKey] == JStr(StrField(env, ModelKey).value)) &&
      (StrField(env, SmallFastKey).None? && StrField(env, ModelKey).None? ==> HaikuKey !in out)
  {
  }

  /** Missing SONNET and OPUS keys are filled from MODEL, and from SMALL_FAST when there is no MODEL. */
  lemma SonnetOpusFallback(settings: Json, key: string)
    requires HasEnv(settings) && key in {SonnetKey, OpusKey} && key !in settings.fields["env"].fields
    ensures var env := settings.fields["env"].fields;
      var out := Normalized(settings).fields["env"].fields;
      (StrField(env, ModelKey).Some? ==> out[key] == JStr(StrField(env, ModelKey).value)) &&
      (StrField(env, ModelKey).None? && StrField(env, SmallFastKey).Some? ==> out[key] == JStr(StrField(env, SmallFastKey).value)) &&
      (StrField(env, ModelKey).None? && StrField(env, SmallFastKey).None? ==> key !in out)
  {
  }

  /** The legacy key is gone after normalisation, and no other key of `env` is removed or changed. */
  lemma DropsOnlySmallFast(settings: Json, key: string)
    requires HasEnv(settings)
    ensures SmallFastKey !in Normalized(settings).fields["env"].fields
    ensures key != SmallFastKey && key in settings.fields["env"].fields ==>
      key in Normalized(settings).fields["env"].fields &&
      Normalized(settings).fields["env"].fields[key] == settings.fields["env"].fields[key]
    ensures key != "env" && key in settings.fields ==> Normalized(settings).fields[key] == settings.fields[key]
  {
  }

  /** Normalising twice is normalising once, so a second call reports no change. */
  lemma NormalizedIdempotent(settings: Json)
    ensures Normalized(Normalized(settings)) == Normalized(settings)
  {
    if HasEnv(settings) {
      var env := settings.fields["env"].fields;
      var once := NormalizedEnv(env);
      assert StrField(once, SmallFastKey).None?;
      assert StrField(once, ModelKey) == StrField(env, ModelKey);
      assert NormalizedEnv(once) == once;
    }
  }
}
