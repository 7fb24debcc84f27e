/** Claude provider switching (`provider.rs`): the Anthropic variables kept in the
    `env` object of `~/.claude/settings.json`, the top-level `apiKeyHelper`, and the
    legacy list of provider presets in `~/.claude/providers.json`.

    Reading a file is an input (`JsonFile`, `LegacyFile`); writing one is returning
    the new document. `normalize_base_url` is not part of this model and is a
    parameter. */
module Provider {
  import opened Wrappers
  import opened Json
  import opened Text
  import opened Lists

  const OFFICIAL_URL: string := "https://api.anthropic.com"

  const BASE_URL: string := "ANTHROPIC_BASE_URL"
  const AUTH_TOKEN: string := "ANTHROPIC_AUTH_TOKEN"
  const API_KEY: string := "ANTHROPIC_API_KEY"
  const MODEL: string := "ANTHROPIC_MODEL"
  const SMALL_FAST_MODEL: string := "ANTHROPIC_SMALL_FAST_MODEL"
  const API_TIMEOUT_MS: string := "API_TIMEOUT_MS"
  const NONESSENTIAL_TRAFFIC: string := "CLAUDE_CODE_DISABLE_NONESSENTIAL_TRAFFIC"
  const API_KEY_HELPER: string := "apiKeyHelper"

  /** The managed names have pairwise different lengths, hence are pairwise different. */
  lemma ManagedKeyLengths()
    ensures |BASE_URL| == 18 && |AUTH_TOKEN| == 20 && |API_KEY| == 17 && |MODEL| == 15
    ensures |SMALL_FAST_MODEL| == 26 && |API_TIMEOUT_MS| == 14 && |NONESSENTIAL_TRAFFIC| == 40
  {
  }

  /** The env variables a switch rewrites. */
  const MANAGED_KEYS: set<string> :=
    {API_KEY, AUTH_TOKEN, BASE_URL, MODEL, SMALL_FAST_MODEL, API_TIMEOUT_MS, NONESSENTIAL_TRAFFIC}

  const CLEARED_MESSAGE: string := "✅ 已清理所有ANTHROPIC环境变量和apiKeyHelper配置\n\n配置已从 ~/.claude/settings.json 中移除！"

  /** The env variables a clear removes. */
  const CLEARED_KEYS: set<string> := {API_KEY, AUTH_TOKEN, BASE_URL, MODEL}

  datatype ProviderConfig = ProviderConfig(
    id: string,
    name: string,
    description: string,
    baseUrl: string,
    authToken: Option<string>,
    apiKey: Option<string>,
    apiKeyHelper: Option<string>,
    model: Option<string>,
    enableAutoApiKeyHelper: Option<bool>)

  /** What `get_current_provider_config` reports. */
  datatype CurrentConfig = CurrentConfig(
    baseUrl: Option<string>,
    authToken: Option<string>,
    apiKey: Option<string>,
    apiKeyHelper: Option<string>,
    model: Option<string>,
    smallFastModel: Option<string>,
    apiTimeoutMs: Option<string>,
    disableNonessentialTraffic: Option<string>)

  /** A settings document to write back and the message reported. */
  datatype Saved = Saved(settings: Json, message: string)

  predicate NonEmpty(o: Option<string>) {
    o.Some? && o.value != ""
  }

  /** `load_settings`: a missing file reads as `{"env": {}}` (and is created with
      that content); a file that does not parse is an error. */
  function LoadSettings(file: JsonFile): (r: Result<Json>)
    ensures r.Err? <==> file.Present? && file.parsed.None?
    ensures file.Absent? ==> r == Ok(JObj(map["env" := JObj(map[])]))
    ensures file.Present? && file.parsed.Some? ==> r == Ok(file.parsed.value)
  {
    match file
    case Absent => Ok(JObj(map["env" := JObj(map[])]))
    case Present(None) => Err("解析设置文件失败")
    case Present(Some(j)) => Ok(j)
  }

  /** The `env` object of a settings document, empty when missing or not an object. */
  function EnvOf(settings: Json): (env: map<string, Json>)
    ensures GetObj(settings, "env").Some? ==> env == GetObj(settings, "env").value
    ensures GetObj(settings, "env").None? ==> env == map[]
  {
    GetObj(settings, "env").GetOr(map[])
  }

  /** `env_vars.get(key).and_then(as_str)`. */
  function EnvStr(env: map<string, Json>, key: string): (r: Option<string>)
    ensures r.Some? <==> key in env && env[key].JStr?
    ensures r.Some? ==> env[key] == JStr(r.value)
  {
    if key in env && env[key].JStr? then Some(env[key].s) else None
  }

  /** `get_current_provider_config`: the seven variables of `env` and the top-level
      `apiKeyHelper`, each present only when it is a string. */
  function GetCurrentProviderConfig(file: JsonFile): (r: Result<CurrentConfig>)
    ensures r.Err? <==> LoadSettings(file).Err?
    ensures r.Ok? ==>
      var settings := LoadSettings(file).value;
      var env := EnvOf(settings);
      && r.value.baseUrl == EnvStr(env, BASE_URL)
      && r.value.authToken == EnvStr(env, AUTH_TOKEN)
      && r.value.apiKey == EnvStr(env, API_KEY)
      && r.value.model == EnvStr(env, MODEL)
      && r.value.smallFastModel == EnvStr(env, SMALL_FAST_MODEL)
      && r.value.apiTimeoutMs == EnvStr(env, API_TIMEOUT_MS)
      && r.value.disableNonessentialTraffic == EnvStr(env, NONESSENTIAL_TRAFFIC)
      && r.value.apiKeyHelper == GetStr(settings, API_KEY_HELPER)
  {
    match LoadSettings(file)
    case Err(e) => Err(e)
    case Ok(settings) =>
      var env := EnvOf(settings);
      Ok(CurrentConfig(
        EnvStr(env, BASE_URL),
        EnvStr(env, AUTH_TOKEN),
        EnvStr(env, API_KEY),
        GetStr(settings, API_KEY_HELPER),
        EnvStr(env, MODEL),
        EnvStr(env, SMALL_FAST_MODEL),
        EnvStr(env, API_TIMEOUT_MS),
        EnvStr(env, NONESSENTIAL_TRAFFIC)))
  }

  /** A document without an `env` object reports no provider variable. */
  lemma NoEnvReadsNothing(settings: Json)
    requires GetObj(settings, "env").None?
    ensures var r := GetCurrentProviderConfig(Present(Some(settings))).value;
      && r.baseUrl.None? && r.authToken.None? && r.apiKey.None? && r.model.None?
      && r.smallFastModel.None? && r.apiTimeoutMs.None? && r.disableNonessentialTraffic.None?
  {
  }

  /** `validate_third_party_config`: a provider other than the official endpoint must
      carry a token or a key; an empty one is accepted here. */
  function ValidateThirdPartyConfig(config: ProviderConfig): (r: Result<()>)
    ensures r.Err? <==> config.baseUrl != OFFICIAL_URL && config.authToken.None? && config.apiKey.None?
  {
    if config.baseUrl != OFFICIAL_URL && config.authToken.None? && config.apiKey.None? then
      Err("第三方API需要设置认证令牌或API密钥")
    else Ok(())
  }

  /** The value a switch leaves in a managed variable, if any. */
  predicate Written(env: map<string, Json>, key: string, value: Option<string>) {
    && (key in env <==> value.Some?)
    && (key in env ==> env[key] == JStr(value.value))
  }

  function IfNonEmpty(o: Option<string>): (r: Option<string>)
    ensures r.Some? <==> NonEmpty(o)
    ensures r.Some? ==> r == o
  {
    if NonEmpty(o) then o else None
  }

  /** The managed variables as a switch leaves them, given the old `env`. */
  ghost predicate EnvRewritten(before: map<string, Json>, after: map<string, Json>, config: ProviderConfig, base: string) {
    && Written(after, BASE_URL, Some(base))
    && Written(after, AUTH_TOKEN, IfNonEmpty(config.authToken))
    && Written(after, API_KEY, IfNonEmpty(config.apiKey))
    && Written(after, MODEL, IfNonEmpty(config.model))
    && Written(after, SMALL_FAST_MODEL, IfNonEmpty(config.model))
    && Written(after, API_TIMEOUT_MS, if base != OFFICIAL_URL then Some("600000") else None)
    && Written(after, NONESSENTIAL_TRAFFIC, if base != OFFICIAL_URL then Some("1") else None)
    && (forall k :: k !in MANAGED_KEYS ==> (k in after <==> k in before) && (k in after ==> after[k] == before[k]))
  }

  /** The `env` part of `switch_provider_config`: drop the seven managed variables,
      then write the base URL and whatever the provider sets. */
  method RewriteEnv(env0: map<string, Json>, config: ProviderConfig, base: string)
    returns (env: map<string, Json>, authToken: Option<string>)
    ensures EnvRewritten(env0, env, config, base)
    ensures authToken == IfNonEmpty(config.authToken)
  {
    ManagedKeyLengths();
    env, authToken := WriteConnection(env0, config, base);
    if base != OFFICIAL_URL {
      env := env[API_TIMEOUT_MS := JStr("600000")];
      env := env[NONESSENTIAL_TRAFFIC := JStr("1")];
    }
    if config.model.Some? && config.model.value != "" {
      env := env[SMALL_FAST_MODEL := JStr(config.model.value)];
    }
  }

  /** The first half of the rewrite: the managed variables dropped, then the base
      URL, token, key and model written. */
  method WriteConnection(env0: map<string, Json>, config: ProviderConfig, base: string)
    returns (env: map<string, Json>, authToken: Option<string>)
    ensures Written(env, BASE_URL, Some(base))
    ensures Written(env, AUTH_TOKEN, IfNonEmpty(config.authToken))
    ensures Written(env, API_KEY, IfNonEmpty(config.apiKey))
    ensures Written(env, MODEL, IfNonEmpty(config.model))
    ensures SMALL_FAST_MODEL !in env && API_TIMEOUT_MS !in env && NONESSENTIAL_TRAFFIC !in env
    ensures forall k :: k !in MANAGED_KEYS ==> (k in env <==> k in env0) && (k in env ==> env[k] == env0[k])
    ensures authToken == IfNonEmpty(config.authToken)
  {
    ManagedKeyLengths();
    env := env0 - {API_KEY, AUTH_TOKEN, BASE_URL, MODEL};
    env := env - {SMALL_FAST_MODEL, API_TIMEOUT_MS, NONESSENTIAL_TRAFFIC};
    assert forall k :: k in env <==> k in env0 && k !in MANAGED_KEYS;

    env := env[BASE_URL := JStr(base)];

    authToken := None;
    if config.authToken.Some? && config.authToken.value != "" {
      env := env[AUTH_TOKEN := JStr(config.authToken.value)];
      authToken := config.authToken;
    }
    if config.apiKey.Some? && config.apiKey.value != "" {
      env := env[API_KEY := JStr(config.apiKey.value)];
    }
    if config.model.Some? && config.model.value != "" {
      env := env[MODEL := JStr(config.model.value)];
    }
  }

  /** The value `apiKeyHelper` is left with. */
  function HelperValue(config: ProviderConfig): (r: Option<string>)
    ensures r.Some? <==> config.enableAutoApiKeyHelper == Some(true) && NonEmpty(config.authToken)
  {
    if config.enableAutoApiKeyHelper.GetOr(false) && NonEmpty(config.authToken)
    then Some("echo '" + config.authToken.value + "'") else None
  }

  /** The message a successful switch reports. */
  function SwitchedMessage(config: ProviderConfig): string {
    "✅ 已成功切换到 " + config.name + " (" + config.description +
    ")\n\n配置已写入 ~/.claude/settings.json，即时生效！"
  }

  const SETTINGS_NOT_OBJECT: string := "settings.json格式错误"
  const ENV_NOT_OBJECT: string := "env字段格式错误"

  /** Write `apiKeyHelper` when the provider asks for it and has a token, remove it
      otherwise; nothing else changes. */
  method SetApiKeyHelper(obj0: map<string, Json>, config: ProviderConfig, authToken: Option<string>)
    returns (obj: map<string, Json>)
    requires authToken == IfNonEmpty(config.authToken)
    ensures Written(obj, API_KEY_HELPER, HelperValue(config))
    ensures forall k :: k != API_KEY_HELPER ==> (k in obj <==> k in obj0) && (k in obj0 ==> obj[k] == obj0[k])
  {
    if config.enableAutoApiKeyHelper.GetOr(false) && authToken.Some? {
      obj := obj0[API_KEY_HELPER := JStr("echo '" + authToken.value + "'")];
    } else {
      obj := obj0 - {API_KEY_HELPER};
    }
  }

  /** `switch_provider_config`: validate, load, rewrite `env`, and set or drop
      `apiKeyHelper`; every other top-level key is kept. */
  method SwitchProviderConfig(config: ProviderConfig, file: JsonFile, normalizeBaseUrl: string -> string)
    returns (r: Result<Saved>)
    ensures r.Err? <==>
      || ValidateThirdPartyConfig(config).Err?
      || LoadSettings(file).Err?
      || !LoadSettings(file).value.JObj?
      || ("env" in LoadSettings(file).value.fields && !LoadSettings(file).value.fields["env"].JObj?)
    ensures r.Ok? ==>
      var before := LoadSettings(file).value;
      var after := r.value.settings;
      && after.JObj?
      && GetObj(after, "env").Some?
      && EnvRewritten(EnvOf(before), EnvOf(after), config, normalizeBaseUrl(config.baseUrl))
      && Written(after.fields, API_KEY_HELPER, HelperValue(config))
      && (forall k :: k != "env" && k != API_KEY_HELPER ==>
            (k in after.fields <==> k in before.fields) && (k in before.fields ==> after.fields[k] == before.fields[k]))
  {
    var valid := ValidateThirdPartyConfig(config);
    if valid.Err? {
      return Err(valid.msg);
    }
    var loaded := LoadSettings(file);
    if loaded.Err? {
      return Err(loaded.msg);
    }
    var settings := loaded.value;
    if !settings.JObj? {
      return Err(SETTINGS_NOT_OBJECT);
    }
    var rewritten := RewriteSettings(settings.fields, config, normalizeBaseUrl(config.baseUrl));
    if rewritten.Err? {
      return Err(rewritten.msg);
    }
    return Ok(Saved(JObj(rewritten.value), SwitchedMessage(config)));
  }

  /** The settings object after a switch: `env` created if missing and rewritten,
      `apiKeyHelper` set or dropped, every other key kept. */
  method RewriteSettings(obj0: map<string, Json>, config: ProviderConfig, base: string)
    returns (r: Result<map<string, Json>>)
    ensures r.Err? <==> "env" in obj0 && !obj0["env"].JObj?
    ensures r.Ok? ==>
      var after := r.value;
      && GetObj(JObj(after), "env").Some?
      && EnvRewritten(EnvOf(JObj(obj0)), EnvOf(JObj(after)), config, base)
      && Written(after, API_KEY_HELPER, HelperValue(config))
      && (forall k :: k != "env" && k != API_KEY_HELPER ==>
            (k in after <==> k in obj0) && (k in obj0 ==> after[k] == obj0[k]))
  {
    assert |API_KEY_HELPER| == 12;
    var obj := obj0;
    if "env" !in obj {
      obj := obj["env" := JObj(map[])];
    }
    if !obj["env"].JObj? {
      return Err(ENV_NOT_OBJECT);
    }
    assert obj["env"].fields == EnvOf(JObj(obj0));
    var env, authToken := RewriteEnv(obj["env"].fields, config, base);
    obj := obj["env" := JObj(env)];
    obj := SetApiKeyHelper(obj, config, authToken);
    assert obj["env"] == JObj(env);
    assert GetObj(JObj(obj), "env") == Some(env);
    return Ok(obj);
  }

  /** What a switch leaves behind is what `get_current_provider_config` then reads. */
  lemma SwitchedIsCurrent(settings: Json, config: ProviderConfig, base: string)
    requires settings.JObj? && GetObj(settings, "env").Some?
    requires Written(EnvOf(settings), BASE_URL, Some(base))
    requires Written(EnvOf(settings), AUTH_TOKEN, IfNonEmpty(config.authToken))
    requires Written(EnvOf(settings), API_KEY, IfNonEmpty(config.apiKey))
    requires Written(EnvOf(settings), MODEL, IfNonEmpty(config.model))
    ensures var r := GetCurrentProviderConfig(Present(Some(settings))).value;
      && r.baseUrl == Some(base)
      && r.authToken == IfNonEmpty(config.authToken)
      && r.apiKey == IfNonEmpty(config.apiKey)
      && r.model == IfNonEmpty(config.model)
  {
  }

  /** `clear_provider_config`: drops four of the managed variables from an `env`
      object and `apiKeyHelper` from an object document; anything else is written
      back as it was. */
  method ClearProviderConfig(file: JsonFile) returns (r: Result<Saved>)
    ensures r.Err? <==> LoadSettings(file).Err?
    ensures r.Ok? && !LoadSettings(file).value.JObj? ==> r.value.settings == LoadSettings(file).value
    ensures r.Ok? && LoadSettings(file).value.JObj? ==>
      var before := LoadSettings(file).value.fields;
      var after := r.value.settings;
      && after.JObj?
      && after.fields.Keys == before.Keys - {API_KEY_HELPER}
      && (forall k :: k in after.fields && k != "env" ==> after.fields[k] == before[k])
      && (GetObj(after, "env").Some? <==> GetObj(JObj(before), "env").Some?)
      && ("env" in before && !before["env"].JObj? ==> after.fields["env"] == before["env"])
      && EnvOf(after) == EnvOf(JObj(before)) - CLEARED_KEYS
  {
    var loaded := LoadSettings(file);
    if loaded.Err? {
      return Err(loaded.msg);
    }
    var settings := loaded.value;
    if settings.JObj? {
      var obj := settings.fields;
      assert "env" != API_KEY_HELPER;
      if "env" in obj && obj["env"].JObj? {
        var env := obj["env"].fields;
        env := env - {API_KEY, AUTH_TOKEN, BASE_URL, MODEL};
        obj := obj["env" := JObj(env)];
        assert EnvOf(JObj(obj - {API_KEY_HELPER})) == env;
      } else {
        assert EnvOf(JObj(obj - {API_KEY_HELPER})) == EnvOf(settings) == map[];
      }
      obj := obj - {API_KEY_HELPER};
      settings := JObj(obj);
    }
    return Ok(Saved(settings, CLEARED_MESSAGE));
  }

  /** After a clear nothing reports a base URL, token, key, model or helper, while
      the 2025 variables read as before. */
  lemma ClearedReadsNothing(before: map<string, Json>, after: Json)
    requires after.JObj? && API_KEY_HELPER !in after.fields
    requires EnvOf(after) == EnvOf(JObj(before)) - CLEARED_KEYS
    ensures var r := GetCurrentProviderConfig(Present(Some(after))).value;
      var prev := GetCurrentProviderConfig(Present(Some(JObj(before)))).value;
      && r.baseUrl.None? && r.authToken.None? && r.apiKey.None? && r.model.None?
      && r.apiKeyHelper.None?
      && r.smallFastModel == prev.smallFastModel
      && r.apiTimeoutMs == prev.apiTimeoutMs
      && r.disableNonessentialTraffic == prev.disableNonessentialTraffic
  {
    var env := EnvOf(after);
    assert SMALL_FAST_MODEL !in CLEARED_KEYS && API_TIMEOUT_MS !in CLEARED_KEYS && NONESSENTIAL_TRAFFIC !in CLEARED_KEYS;
  }

  // ---------------------------------------------------------------------------
  // Legacy provider presets (`~/.claude/providers.json`)
  // ---------------------------------------------------------------------------

  /** What reading the legacy list yields: nothing, or its text and its parse. */
  datatype LegacyFile = NoLegacyFile | Legacy(content: string, parsed: Option<seq<ProviderConfig>>)

  function Id(p: ProviderConfig): string {
    p.id
  }

  predicate UniqueIds(ps: seq<ProviderConfig>) {
    forall i, j :: 0 <= i < j < |ps| ==> ps[i].id != ps[j].id
  }

  /** `load_legacy_providers`: missing or blank is the empty list; text that does not
      parse is an error. */
  function LoadLegacyProviders(file: LegacyFile): (r: Result<seq<ProviderConfig>>)
    ensures r.Err? <==> file.Legacy? && !IsBlank(file.content) && file.parsed.None?
    ensures file.NoLegacyFile? || IsBlank(file.content) ==> r == Ok([])
  {
    match file
    case NoLegacyFile => Ok([])
    case Legacy(content, parsed) =>
      if IsBlank(content) then Ok([])
      else match parsed
        case None => Err("解析遗留配置文件失败")
        case Some(ps) => Ok(ps)
  }

  /** A new list to write back and the message reported. */
  datatype NewList = NewList(providers: seq<ProviderConfig>, message: string)

  /** `add_provider_config`: a duplicate id is refused, otherwise appended. */
  function AddProviderConfig(file: LegacyFile, config: ProviderConfig): (r: Result<NewList>)
    ensures LoadLegacyProviders(file).Err? ==> r.Err?
    ensures LoadLegacyProviders(file).Ok? ==>
      var ps := LoadLegacyProviders(file).value;
      && (r.Err? <==> HasKey(ps, Id, config.id))
      && (r.Ok? ==> r.value.providers == ps + [config])
  {
    match LoadLegacyProviders(file)
    case Err(e) => Err(e)
    case Ok(ps) =>
      if HasKey(ps, Id, config.id) then Err("ID '" + config.id + "' 已存在，请使用不同的ID")
      else Ok(NewList(ps + [config], "成功添加代理商配置: " + config.name))
  }

  /** `update_provider_config`: the first entry with the id is replaced. */
  function UpdateProviderConfig(file: LegacyFile, config: ProviderConfig): (r: Result<NewList>)
    ensures r.Ok? <==> LoadLegacyProviders(file).Ok? && HasKey(LoadLegacyProviders(file).value, Id, config.id)
    ensures r.Ok? ==>
      var ps := LoadLegacyProviders(file).value;
      exists k :: 0 <= k < |ps| && ps[k].id == config.id &&
        (forall j :: 0 <= j < k ==> ps[j].id != config.id) &&
        r.value.providers == ps[k := config]
  {
    match LoadLegacyProviders(file)
    case Err(e) => Err(e)
    case Ok(ps) =>
      match IndexOfKey(ps, Id, config.id)
      case None => Err("未找到ID为 '" + config.id + "' 的配置")
      case Some(k) => Ok(NewList(ps[k := config], "成功更新代理商配置: " + config.name))
  }

  /** `delete_provider_config`: the first entry with the id is removed, and its name
      is reported. */
  function DeleteProviderConfig(file: LegacyFile, id: string): (r: Result<NewList>)
    ensures r.Ok? <==> LoadLegacyProviders(file).Ok? && HasKey(LoadLegacyProviders(file).value, Id, id)
    ensures r.Ok? ==>
      var ps := LoadLegacyProviders(file).value;
      exists k :: 0 <= k < |ps| && ps[k].id == id &&
        (forall j :: 0 <= j < k ==> ps[j].id != id) &&
        r.value.providers == ps[..k] + ps[k + 1..] &&
        r.value.message == "成功删除代理商配置: " + ps[k].name
  {
    match LoadLegacyProviders(file)
    case Err(e) => Err(e)
    case Ok(ps) =>
      match IndexOfKey(ps, Id, id)
      case None => Err("未找到ID为 '" + id + "' 的配置")
      case Some(k) => Ok(NewList(ps[..k] + ps[k + 1..], "成功删除代理商配置: " + ps[k].name))
  }

  /** `get_provider_config`: the first entry with the id. */
  function GetProviderConfig(file: LegacyFile, id: string): (r: Result<ProviderConfig>)
    ensures r.Ok? <==> LoadLegacyProviders(file).Ok? && HasKey(LoadLegacyProviders(file).value, Id, id)
    ensures r.Ok? ==> r.value.id == id && r.value in LoadLegacyProviders(file).value
    ensures r.Ok? ==> var ps := LoadLegacyProviders(file).value;
      exists k :: 0 <= k < |ps| && ps[k] == r.value && forall j :: 0 <= j < k ==> ps[j].id != id
  {
    match LoadLegacyProviders(file)
    case Err(e) => Err(e)
    case Ok(ps) =>
      match IndexOfKey(ps, Id, id)
      case None => Err("未找到ID为 '" + id + "' 的配置")
      case Some(k) => Ok(ps[k])
  }

  /** The list as written back, read again: a non-blank file (the content stands
      for the pretty-printed JSON, which always begins with `[`) that parses to `ps`. */
  function Stored(ps: seq<ProviderConfig>): LegacyFile {
    Legacy("[]", Some(ps))
  }

  /** Adding keeps ids unique. */
  lemma AddKeepsIdsUnique(ps: seq<ProviderConfig>, config: ProviderConfig)
    requires UniqueIds(ps)
    ensures AddProviderConfig(Stored(ps), config).Ok? ==> UniqueIds(AddProviderConfig(Stored(ps), config).value.providers)
  {
    assert !IsBlank("[]") by {
      assert !IsWhiteSpace('[');
      TrimStartSpec("[]");
      TrimEndSpec(TrimStart("[]"));
    }
    if AddProviderConfig(Stored(ps), config).Ok? {
      var r := ps + [config];
      forall i, j | 0 <= i < j < |r|
        ensures r[i].id != r[j].id
      {
        if j == |ps| {
          assert r[i] == ps[i];
          assert Id(ps[i]) != config.id;
        }
      }
    }
  }

  /** With unique ids, getting after adding finds the added entry, and deleting
      after adding gives back the list from before. */
  lemma AddThenGetAndDelete(ps: seq<ProviderConfig>, config: ProviderConfig)
    requires AddProviderConfig(Stored(ps), config).Ok?
    ensures GetProviderConfig(Stored(ps + [config]), config.id) == Ok(config)
    ensures DeleteProviderConfig(Stored(ps + [config]), config.id).Ok?
    ensures DeleteProviderConfig(Stored(ps + [config]), config.id).value.providers == ps
  {
    assert !IsBlank("[]") by {
      assert !IsWhiteSpace('[');
      TrimStartSpec("[]");
      TrimEndSpec(TrimStart("[]"));
    }
    var all := ps + [config];
    assert !HasKey(ps, Id, config.id);
    assert Id(all[|ps|]) == config.id;
    var k := IndexOfKey(all, Id, config.id);
    assert k == Some(|ps|) by {
      assert forall j :: 0 <= j < |ps| ==> all[j] == ps[j];
    }
    assert all[..|ps|] + all[|ps| + 1..] == ps;
  }

  /** Updating keeps every id in place. */
  lemma UpdateKeepsIds(ps: seq<ProviderConfig>, config: ProviderConfig)
    ensures UpdateProviderConfig(Stored(ps), config).Ok? ==>
      var r := UpdateProviderConfig(Stored(ps), config).value.providers;
      |r| == |ps| && forall i :: 0 <= i < |r| ==> r[i].id == ps[i].id
  {
    assert !IsBlank("[]") by {
      assert !IsWhiteSpace('[');
      TrimStartSpec("[]");
      TrimEndSpec(TrimStart("[]"));
    }
  }
}
