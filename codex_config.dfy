/** Codex configuration edits (`codex/config.rs`): user path expansion, the per-tool
    binary override kept in `binaries.json`, reading `auth.json` and `config.toml`,
    the merges performed when switching provider, and the provider preset list.

    Files are given by what reading them yields; writing a file is returning its new
    content. TOML text is parsed by an oracle into a table of opaque values. */
module CodexConfig {
  import opened Wrappers
  import opened Json
  import opened Text
  import opened Lists

  // ---------------------------------------------------------------------------
  // Paths
  // ---------------------------------------------------------------------------

  /** `Path::is_absolute` on a Unix system. */
  predicate IsAbsolute(p: string) {
    |p| > 0 && p[0] == '/'
  }

  /** `Path::join`: an absolute `p` replaces the base, otherwise a separator is put
      between them unless the base already ends with one. */
  function PathJoin(base: string, p: string): (r: string)
    ensures IsAbsolute(base) ==> IsAbsolute(r)
    ensures IsAbsolute(p) ==> r == p
  {
    if IsAbsolute(p) then p
    else if base == [] then p
    else if base[|base| - 1] == '/' then base + p
    else base + "/" + p
  }

  /** `str::trim_start_matches("~/")`: every leading `~/` removed. */
  function TrimTildeSlashes(s: string): (r: string)
    ensures |r| <= |s| && r == s[|s| - |r|..]
    ensures !StartsWith(r, "~/")
  {
    if StartsWith(s, "~/") then TrimTildeSlashes(s[2..]) else s
  }

  /** `expand_user_path`: the home directory and the current directory are inputs,
      `None` / `Err` standing for their lookups failing. */
  function ExpandUserPath(input: string, home: Option<string>, cwd: Result<string>): (r: Result<string>)
    ensures IsBlank(input) ==> r == Err("Path is empty")
    ensures !IsBlank(input) && (input == "~" || StartsWith(input, "~/")) && home.None? ==>
              r == Err("Cannot find home directory")
  {
    if IsBlank(input) then Err("Path is empty")
    else
      var expanded :=
        if input == "~" || StartsWith(input, "~/") then
          match home
          case None => Err("Cannot find home directory")
          case Some(h) => Ok(if input == "~" then h else PathJoin(h, TrimTildeSlashes(input)))
        else Ok(input);
      match expanded
      case Err(e) => Err(e)
      case Ok(path) =>
        if IsAbsolute(path) then Ok(path)
        else match cwd
          case Err(e) => Err("Failed to get current dir: " + e)
          case Ok(dir) => Ok(PathJoin(dir, path))
  }

  /** The current directory is absolute, so every expanded path is. */
  lemma ExpandedIsAbsolute(input: string, home: Option<string>, cwd: Result<string>)
    requires cwd.Ok? ==> IsAbsolute(cwd.value)
    ensures ExpandUserPath(input, home, cwd).Ok? ==> IsAbsolute(ExpandUserPath(input, home, cwd).value)
  {
  }

  /** `~` is the home directory and `~/x` is `x` inside it; other absolute paths are
      kept as they are. */
  lemma ExpandTilde(home: string, rest: string, cwd: Result<string>)
    requires IsAbsolute(home) && home[|home| - 1] != '/'
    requires !StartsWith(rest, "~/") && !IsAbsolute(rest)
    ensures ExpandUserPath("~", Some(home), cwd) == Ok(home)
    ensures ExpandUserPath("~/" + rest, Some(home), cwd) == Ok(home + "/" + rest)
  {
    assert Trim("~") == "~" by {
      assert !IsWhiteSpace('~');
      TrimStartSpec("~");
      TrimEndSpec(TrimStart("~"));
    }
    var s := "~/" + rest;
    assert StartsWith(s, "~/");
    assert s[2..] == rest;
    assert !IsBlank(s) by {
      assert !IsWhiteSpace(s[0]);
      TrimStartSpec(s);
      TrimEndSpec(TrimStart(s));
    }
    assert TrimTildeSlashes(s) == rest;
  }

  lemma ExpandAbsolute(input: string, home: Option<string>, cwd: Result<string>)
    requires IsAbsolute(input)
    ensures ExpandUserPath(input, home, cwd) == Ok(input)
  {
    assert !IsBlank(input) by {
      assert !IsWhiteSpace(input[0]);
      TrimStartSpec(input);
      TrimEndSpec(TrimStart(input));
    }
    assert !StartsWith(input, "~/") && input != "~" by {
      assert input[0] == '/';
    }
  }

  // ---------------------------------------------------------------------------
  // Binary override (`~/.claude/binaries.json`)
  // ---------------------------------------------------------------------------

  /** The document an edit starts from: unparseable or missing content reads as `{}`. */
  function Loaded(file: JsonFile): (r: Json)
    ensures file.Present? && file.parsed.Some? ==> r == file.parsed.value
    ensures file.Absent? || file.parsed.None? ==> r == JObj(map[])
  {
    match file
    case Absent => JObj(map[])
    case Present(p) => p.GetOr(JObj(map[]))
  }

  /** `get_binary_override`: `root[tool].override_path` when it is a string. */
  function GetBinaryOverride(file: JsonFile, tool: string): (r: Option<string>)
    ensures r.Some? ==>
      (file.Present? && file.parsed.Some? && Get(file.parsed.value, tool).Some? &&
       Get(Get(file.parsed.value, tool).value, "override_path") == Some(JStr(r.value)))
  {
    match file
    case Absent => None
    case Present(p) =>
      match p
      case None => None
      case Some(root) =>
        match Get(root, tool)
        case None => None
        case Some(section) => GetStr(section, "override_path")
  }

  /** `update_binary_override`: the new document. A root that is not an object is an
      error; a tool section that exists but is not an object is left as it is. */
  function UpdateBinaryOverride(file: JsonFile, tool: string, path: string): (r: Result<Json>)
    ensures r.Err? <==> !Loaded(file).JObj?
    ensures r.Ok? ==> r.value.JObj? && r.value.fields.Keys == Loaded(file).fields.Keys + {tool}
    ensures r.Ok? ==> forall k :: k in Loaded(file).fields && k != tool ==> r.value.fields[k] == Loaded(file).fields[k]
  {
    var root := Loaded(file);
    if !root.JObj? then Err("Invalid binaries.json format (not an object)")
    else
      var entry := if tool in root.fields then root.fields[tool] else JObj(map[]);
      var entry' := if entry.JObj? then JObj(entry.fields["override_path" := JStr(path)]) else entry;
      Ok(JObj(root.fields[tool := entry']))
  }

  /** `clear_binary_override`: a missing file stays missing; otherwise the document is
      rewritten without `override_path` in the tool's section. */
  function ClearBinaryOverride(file: JsonFile, tool: string): (r: JsonFile)
    ensures file.Absent? <==> r.Absent?
    ensures r.Present? ==> r.parsed.Some? && (Loaded(file).JObj? <==> r.parsed.value.JObj?)
  {
    match file
    case Absent => Absent
    case Present(_) =>
      var root := Loaded(file);
      if root.JObj? && tool in root.fields && root.fields[tool].JObj? then
        Present(Some(JObj(root.fields[tool := JObj(root.fields[tool].fields - {"override_path"})])))
      else Present(Some(root))
  }

  /** An update is read back, unless the tool's section is there but not an object. */
  lemma UpdateThenGet(file: JsonFile, tool: string, path: string)
    requires Loaded(file).JObj?
    requires tool in Loaded(file).fields ==> Loaded(file).fields[tool].JObj?
    ensures GetBinaryOverride(Present(Some(UpdateBinaryOverride(file, tool, path).value)), tool) == Some(path)
  {
  }

  /** The override of every other tool is unaffected by an update or a clear. */
  lemma OtherToolsUntouched(file: JsonFile, tool: string, other: string, path: string)
    requires other != tool
    ensures UpdateBinaryOverride(file, tool, path).Ok? ==>
      GetBinaryOverride(Present(Some(UpdateBinaryOverride(file, tool, path).value)), other) ==
      GetBinaryOverride(file, other)
    ensures GetBinaryOverride(ClearBinaryOverride(file, tool), other) == GetBinaryOverride(file, other)
  {
  }

  /** After a clear nothing is read back; the rest of the tool's section survives. */
  lemma ClearThenGet(file: JsonFile, tool: string)
    ensures GetBinaryOverride(ClearBinaryOverride(file, tool), tool).None?
    ensures Loaded(file).JObj? && tool in Loaded(file).fields && Loaded(file).fields[tool].JObj? ==>
      forall k :: k in Loaded(file).fields[tool].fields && k != "override_path" ==>
        Loaded(ClearBinaryOverride(file, tool)).fields[tool].fields[k] == Loaded(file).fields[tool].fields[k]
  {
  }

  /** Clearing after an update removes what the update stored and nothing else of the
      section it created. */
  lemma ClearUndoesUpdate(file: JsonFile, tool: string, path: string)
    requires Loaded(file).JObj? && tool !in Loaded(file).fields
    ensures ClearBinaryOverride(Present(Some(UpdateBinaryOverride(file, tool, path).value)), tool) ==
      Present(Some(JObj(Loaded(file).fields[tool := JObj(map[])])))
  {
    var root := Loaded(file).fields;
    var updated := root[tool := JObj(map["override_path" := JStr(path)])];
    assert UpdateBinaryOverride(file, tool, path) == Ok(JObj(updated));
    assert map["override_path" := JStr(path)] - {"override_path"} == map[];
    assert updated[tool := JObj(map[])] == root[tool := JObj(map[])];
  }

  // ---------------------------------------------------------------------------
  // Reading auth.json and config.toml
  // ---------------------------------------------------------------------------

  const API_KEY_FIELDS: seq<string> := ["OPENAI_API_KEY", "OPENAI_KEY", "API_KEY"]

  /** `extract_api_key_from_auth`: the first of the three keys that is present decides,
      and yields its value only when that is a string. */
  function ExtractApiKey(auth: Json): (r: Option<string>)
    ensures r.Some? ==>
      (exists i :: 0 <= i < |API_KEY_FIELDS| &&
        Get(auth, API_KEY_FIELDS[i]) == Some(JStr(r.value)) &&
        forall j :: 0 <= j < i ==> Get(auth, API_KEY_FIELDS[j]).None?)
  {
    var found :=
      if Get(auth, "OPENAI_API_KEY").Some? then Get(auth, "OPENAI_API_KEY")
      else if Get(auth, "OPENAI_KEY").Some? then Get(auth, "OPENAI_KEY")
      else Get(auth, "API_KEY");
    match found
    case None => None
    case Some(v) =>
      var r := AsStr(v);
      if r.Some? then
        if Get(auth, "OPENAI_API_KEY").Some? then
          assert Get(auth, API_KEY_FIELDS[0]) == Some(JStr(r.value));
          r
        else if Get(auth, "OPENAI_KEY").Some? then
          assert Get(auth, API_KEY_FIELDS[1]) == Some(JStr(r.value));
          r
        else
          assert Get(auth, API_KEY_FIELDS[2]) == Some(JStr(r.value));
          r
      else r
  }

  /** A present `OPENAI_API_KEY` decides even when it is not a string. */
  lemma ApiKeyPreference(auth: Json)
    ensures Get(auth, "OPENAI_API_KEY").Some? ==> ExtractApiKey(auth) == AsStr(Get(auth, "OPENAI_API_KEY").value)
    ensures Get(auth, "OPENAI_API_KEY").None? && Get(auth, "OPENAI_KEY").Some? ==>
      ExtractApiKey(auth) == AsStr(Get(auth, "OPENAI_KEY").value)
    ensures Get(auth, "OPENAI_API_KEY").None? && Get(auth, "OPENAI_KEY").None? ==>
      ExtractApiKey(auth) == GetStr(auth, "API_KEY")
  {
  }

  /** Index of the first character at or after `i` that is not white space. */
  function SkipSpace(s: string, i: nat): (j: nat)
    requires i <= |s|
    ensures i <= j <= |s| && (j < |s| ==> !IsWhiteSpace(s[j]))
    ensures forall k :: i <= k < j ==> IsWhiteSpace(s[k])
    decreases |s| - i
  {
    if i < |s| && IsWhiteSpace(s[i]) then SkipSpace(s, i + 1) else i
  }

  /** Index of the first `"` at or after `i`, if any. */
  function QuoteAt(s: string, i: nat): (j: Option<nat>)
    requires i <= |s|
    ensures j.Some? ==> i <= j.value < |s| && s[j.value] == '"'
    ensures forall k :: i <= k < (if j.Some? then j.value else |s|) ==> s[k] != '"'
    decreases |s| - i
  {
    if i == |s| then None
    else if s[i] == '"' then Some(i)
    else QuoteAt(s, i + 1)
  }

  /** The capture of `model\s*=\s*"([^"]+)"` matched at position `i`. */
  function CaptureAt(s: string, i: nat): (r: Option<string>)
    requires i <= |s|
    ensures r.Some? ==> |r.value| > 0 && '"' !in r.value
  {
    if !StartsWith(s[i..], "model") then None
    else
      var j := SkipSpace(s, i + 5);
      if j == |s| || s[j] != '=' then None
      else
        var k := SkipSpace(s, j + 1);
        if k == |s| || s[k] != '"' then None
        else match QuoteAt(s, k + 1)
          case None => None
          case Some(e) => if e == k + 1 then None else Some(s[k + 1..e])
  }

  /** `Regex::captures`: the leftmost position where the pattern matches. */
  function ModelCapture(s: string, i: nat): (r: Option<string>)
    requires i <= |s|
    ensures r.Some? ==> exists p :: i <= p <= |s| && CaptureAt(s, p) == r
    decreases |s| - i
  {
    if CaptureAt(s, i).Some? then CaptureAt(s, i)
    else if i == |s| then None
    else ModelCapture(s, i + 1)
  }

  predicate IsModelLine(line: string) {
    StartsWith(Trim(line), "model =")
  }

  function ModelFromLines(lines: seq<string>): Option<string> {
    if lines == [] then None
    else if IsModelLine(lines[0]) then ModelCapture(Trim(lines[0]), 0)
    else ModelFromLines(lines[1..])
  }

  /** `extract_model_from_config`. */
  function ExtractModel(config: string): Option<string> {
    ModelFromLines(Lines(config))
  }

  /** The first line starting `model =` decides alone, even when its value does not
      match; lines after it are never looked at. */
  lemma {:induction false} FirstModelLineDecides(lines: seq<string>, k: nat)
    requires k < |lines| && IsModelLine(lines[k])
    requires forall j :: 0 <= j < k ==> !IsModelLine(lines[j])
    ensures ModelFromLines(lines) == ModelCapture(Trim(lines[k]), 0)
    decreases k
  {
    if k > 0 {
      FirstModelLineDecides(lines[1..], k - 1);
    }
  }

  lemma NoModelLine(lines: seq<string>)
    requires forall j :: 0 <= j < |lines| ==> !IsModelLine(lines[j])
    ensures ModelFromLines(lines).None?
  {
  }

  /** A line `model = "v"` with a quote-free, non-empty `v` captures `v`. */
  lemma CaptureAfterPrefix(s: string, v: string)
    requires |v| > 0 && '"' !in v
    requires StartsWith(s, "model = \"") && s[9..] == v + "\""
    ensures ModelCapture(s, 0) == Some(v)
  {
    ModelAssignmentPrefix(s);
    var e := |s| - 1;
    assert s[9..e] == v;
    forall k | 9 <= k < e
      ensures s[k] != '"'
    {
      assert s[k] == s[9..][k - 9] == v[k - 9];
    }
    QuoteAtFirst(s, 9, e);
    assert CaptureAt(s, 0) == Some(v);
  }

  /** After `model = "` the capture starts at index 9. */
  lemma ModelAssignmentPrefix(s: string)
    requires StartsWith(s, "model = \"")
    ensures StartsWith(s[0..], "model")
    ensures SkipSpace(s, 5) == 6 && s[6] == '='
    ensures SkipSpace(s, 7) == 8 && s[8] == '"'
  {
    assert s[..5] == "model";
    assert s[0..] == s;
    assert s[5] == ' ' && IsWhiteSpace(' ');
    assert SkipSpace(s, 6) == 6;
    assert s[7] == ' ';
    assert SkipSpace(s, 8) == 8;
  }

  lemma {:induction false} QuoteAtFirst(s: string, i: nat, e: nat)
    requires i <= e < |s| && s[e] == '"'
    requires forall k :: i <= k < e ==> s[k] != '"'
    ensures QuoteAt(s, i) == Some(e)
    decreases e - i
  {
    if i < e {
      QuoteAtFirst(s, i + 1, e);
    }
  }

  // ---------------------------------------------------------------------------
  // Switching provider
  // ---------------------------------------------------------------------------

  /** A value that counts as set: neither `null` nor the empty string. */
  predicate Meaningful(v: Json) {
    v != JNull && v != JStr("")
  }

  /** Whether the new auth sets any API-key field. */
  predicate HasApiKey(auth: map<string, Json>) {
    exists i :: 0 <= i < |API_KEY_FIELDS| && API_KEY_FIELDS[i] in auth && Meaningful(auth[API_KEY_FIELDS[i]])
  }

  predicate Overrides(newAuth: map<string, Json>, k: string) {
    k in newAuth && Meaningful(newAuth[k])
  }

  /** `r` is `existing` with the stale API keys dropped when the new auth sets none,
      and every set value of the new auth written over it. */
  ghost predicate AuthMerged(r: map<string, Json>, existing: map<string, Json>, newAuth: map<string, Json>) {
    && (forall k :: k in r <==>
         Overrides(newAuth, k) || (k in existing && (HasApiKey(newAuth) || k !in API_KEY_FIELDS)))
    && (forall k :: k in r ==> r[k] == (if Overrides(newAuth, k) then newAuth[k] else existing[k]))
  }

  /** The auth.json merge on an existing, parseable auth object. */
  method MergeAuth(existing: map<string, Json>, newAuth: map<string, Json>) returns (r: map<string, Json>)
    ensures AuthMerged(r, existing, newAuth)
    ensures !HasApiKey(newAuth) ==> forall i :: 0 <= i < |API_KEY_FIELDS| ==> API_KEY_FIELDS[i] !in r
  {
    r := existing;
    if !HasApiKey(newAuth) {
      for i := 0 to |API_KEY_FIELDS|
        invariant forall k :: k in r <==> k in existing && k !in API_KEY_FIELDS[..i]
        invariant forall k :: k in r ==> r[k] == existing[k]
      {
        assert API_KEY_FIELDS[..i + 1] == API_KEY_FIELDS[..i] + [API_KEY_FIELDS[i]];
        r := r - {API_KEY_FIELDS[i]};
      }
      assert API_KEY_FIELDS[..|API_KEY_FIELDS|] == API_KEY_FIELDS;
    }
    ghost var base := r;
    var pending := newAuth.Keys;
    while pending != {}
      invariant pending <= newAuth.Keys
      invariant forall k :: k in r <==> k in base || (k !in pending && Overrides(newAuth, k))
      invariant forall k :: k in r ==> r[k] == (if k !in pending && Overrides(newAuth, k) then newAuth[k] else base[k])
      decreases pending
    {
      var k :| k in pending;
      var v := newAuth[k];
      if v != JNull && v != JStr("") {
        r := r[k := v];
      }
      pending := pending - {k};
    }
    forall i | 0 <= i < |API_KEY_FIELDS| && !HasApiKey(newAuth)
      ensures API_KEY_FIELDS[i] !in r
    {
      assert !Overrides(newAuth, API_KEY_FIELDS[i]);
    }
  }

  /** A TOML value; its structure is never inspected. */
  datatype Toml = Toml(text: string)

  type TomlTable = map<string, Toml>

  const PROVIDER_KEYS: seq<string> := ["model_provider", "model", "model_providers"]

  /** `r` is `existing` without the provider keys, with the new table's entries
      written over the rest. */
  ghost predicate TomlMerged(r: TomlTable, existing: TomlTable, newTable: Option<TomlTable>) {
    && (forall k :: k in r <==>
         (newTable.Some? && k in newTable.value) || (k in existing && k !in PROVIDER_KEYS))
    && (forall k :: k in r ==>
         r[k] == (if newTable.Some? && k in newTable.value then newTable.value[k] else existing[k]))
  }

  /** The config.toml merge on an existing, parseable table. */
  method MergeToml(existing: TomlTable, newTable: Option<TomlTable>) returns (r: TomlTable)
    ensures TomlMerged(r, existing, newTable)
  {
    r := existing;
    for i := 0 to |PROVIDER_KEYS|
      invariant forall k :: k in r <==> k in existing && k !in PROVIDER_KEYS[..i]
      invariant forall k :: k in r ==> r[k] == existing[k]
    {
      assert PROVIDER_KEYS[..i + 1] == PROVIDER_KEYS[..i] + [PROVIDER_KEYS[i]];
      r := r - {PROVIDER_KEYS[i]};
    }
    assert PROVIDER_KEYS[..|PROVIDER_KEYS|] == PROVIDER_KEYS;
    if newTable.Some? {
      ghost var base := r;
      var pending := newTable.value.Keys;
      while pending != {}
        invariant pending <= newTable.value.Keys
        invariant forall k :: k in r <==> k in base || (k in newTable.value && k !in pending)
        invariant forall k :: k in r ==> r[k] == (if k in newTable.value && k !in pending then newTable.value[k] else base[k])
        decreases pending
      {
        var k :| k in pending;
        r := r[k := newTable.value[k]];
        pending := pending - {k};
      }
    }
  }

  /** A preset of `providers.json`. */
  datatype CodexProvider = CodexProvider(
    id: string,
    name: string,
    description: Option<string>,
    websiteUrl: Option<string>,
    category: Option<string>,
    auth: Json,
    config: string,
    isOfficial: Option<bool>,
    isPartner: Option<bool>,
    createdAt: Option<int>)

  /** The new config.toml: the new text as given, or the merged table (its
      serialisation is not modelled). */
  datatype ConfigOut = Verbatim(text: string) | Merged(table: TomlTable)

  datatype Switched = Switched(auth: Json, config: ConfigOut, message: string)

  /** `switch_codex_provider`. `parseToml` is the TOML parser; `existingAuth` is the
      current auth.json when it exists and parses as an object, `existingConfig` the
      current config.toml table when it exists and parses. */
  method SwitchCodexProvider(provider: CodexProvider, parseToml: string -> Option<TomlTable>,
                             existingAuth: Option<map<string, Json>>, existingConfig: Option<TomlTable>)
    returns (r: Result<Switched>)
    ensures r.Err? <==> !IsBlank(provider.config) && parseToml(provider.config).None?
    ensures r.Ok? && (existingAuth.None? || !provider.auth.JObj?) ==>
      r.value.auth == (if existingAuth.None? then provider.auth else JObj(existingAuth.value))
    ensures r.Ok? && existingConfig.None? ==> r.value.config == Verbatim(provider.config)
    ensures r.Ok? && existingConfig.Some? ==>
      r.value.config.Merged? &&
      TomlMerged(r.value.config.table, existingConfig.value,
                 if IsBlank(provider.config) then None else parseToml(provider.config))
    ensures r.Ok? && existingConfig.Some? && IsBlank(provider.config) ==>
      forall k :: k in r.value.config.table <==> k in existingConfig.value && k !in PROVIDER_KEYS
    ensures r.Ok? && existingAuth.Some? && provider.auth.JObj? ==>
      r.value.auth.JObj? && AuthMerged(r.value.auth.fields, existingAuth.value, provider.auth.fields)
    ensures r.Ok? && existingAuth.Some? && provider.auth.JObj? && !HasApiKey(provider.auth.fields) ==>
      forall i :: 0 <= i < |API_KEY_FIELDS| ==> API_KEY_FIELDS[i] !in r.value.auth.fields
    ensures r.Ok? ==> r.value.message == "Successfully switched to Codex provider: " + provider.name
  {
    var newTable: Option<TomlTable> := None;
    if !IsBlank(provider.config) {
      newTable := parseToml(provider.config);
      if newTable.None? {
        return Err("Invalid TOML configuration");
      }
    }
    var auth := provider.auth;
    if existingAuth.Some? {
      auth := JObj(existingAuth.value);
      if provider.auth.JObj? {
        var merged := MergeAuth(existingAuth.value, provider.auth.fields);
        auth := JObj(merged);
      }
    }
    var config := Verbatim(provider.config);
    if existingConfig.Some? {
      var merged := MergeToml(existingConfig.value, newTable);
      config := Merged(merged);
    }
    return Ok(Switched(auth, config, "Successfully switched to Codex provider: " + provider.name));
  }

  // ---------------------------------------------------------------------------
  // Provider presets (`providers.json`)
  // ---------------------------------------------------------------------------

  /** What reading `providers.json` yields. */
  datatype PresetFile = NoFile | Unparseable | Presets(items: seq<CodexProvider>)

  function Id(p: CodexProvider): string {
    p.id
  }

  predicate HasId(ps: seq<CodexProvider>, id: string) {
    HasKey(ps, Id, id)
  }

  predicate UniqueIds(ps: seq<CodexProvider>) {
    forall i, j :: 0 <= i < j < |ps| ==> ps[i].id != ps[j].id
  }

  /** `add_codex_provider_config`: a file that does not parse counts as empty; a
      duplicate id is refused; otherwise the preset is appended. */
  function AddCodexProvider(file: PresetFile, provider: CodexProvider): (r: Result<seq<CodexProvider>>)
    ensures var ps := if file.Presets? then file.items else [];
      && (r.Err? <==> HasId(ps, provider.id))
      && (r.Ok? ==> r.value == ps + [provider])
  {
    var ps := if file.Presets? then file.items else [];
    if HasId(ps, provider.id) then Err("Provider with ID '" + provider.id + "' already exists")
    else Ok(ps + [provider])
  }

  /** `update_codex_provider_config`: the first preset with the id is replaced. */
  function UpdateCodexProvider(file: PresetFile, provider: CodexProvider): (r: Result<seq<CodexProvider>>)
    ensures r.Ok? <==> file.Presets? && HasId(file.items, provider.id)
    ensures r.Ok? ==>
      (exists k :: 0 <= k < |file.items| && file.items[k].id == provider.id &&
        (forall j :: 0 <= j < k ==> file.items[j].id != provider.id) &&
        r.value == file.items[k := provider])
  {
    match file
    case NoFile => Err("Provider with ID '" + provider.id + "' not found")
    case Unparseable => Err("Failed to parse providers.json")
    case Presets(ps) =>
      match IndexOfKey(ps, Id, provider.id)
      case None => Err("Provider with ID '" + provider.id + "' not found")
      case Some(k) => Ok(ps[k := provider])
  }

  /** `providers.retain(|p| p.id != id)`. */
  function WithoutId(ps: seq<CodexProvider>, id: string): (r: seq<CodexProvider>)
    ensures |r| <= |ps|
    ensures forall p :: p in r <==> p in ps && p.id != id
    ensures |r| == |ps| <==> !HasId(ps, id)
    decreases |ps|
  {
    if ps == [] then []
    else
      var init := ps[..|ps| - 1];
      var last := ps[|ps| - 1];
      var r := WithoutId(init, id) + (if last.id == id then [] else [last]);
      assert forall p :: p in ps <==> p in init || p == last;
      assert HasId(ps, id) <==> HasId(init, id) || last.id == id by {
        if HasId(ps, id) {
          var i :| 0 <= i < |ps| && ps[i].id == id;
          if i < |ps| - 1 { assert init[i] == ps[i]; }
        }
        if HasId(init, id) {
          var i :| 0 <= i < |init| && init[i].id == id;
          assert ps[i] == init[i];
        }
      }
      r
  }

  /** `delete_codex_provider_config`: every preset with the id is removed; removing
      none is an error. */
  function DeleteCodexProvider(file: PresetFile, id: string): (r: Result<seq<CodexProvider>>)
    ensures r.Ok? <==> file.Presets? && HasId(file.items, id)
    ensures r.Ok? ==> r.value == WithoutId(file.items, id) && !HasId(r.value, id)
  {
    match file
    case NoFile => Err("Provider with ID '" + id + "' not found")
    case Unparseable => Err("Failed to parse providers.json")
    case Presets(ps) =>
      var kept := WithoutId(ps, id);
      if |kept| == |ps| then Err("Provider with ID '" + id + "' not found")
      else
        assert forall i :: 0 <= i < |kept| ==> kept[i] in kept;
        Ok(kept)
  }

  /** Adding keeps ids unique. */
  lemma AddKeepsIdsUnique(ps: seq<CodexProvider>, provider: CodexProvider)
    requires UniqueIds(ps)
    ensures AddCodexProvider(Presets(ps), provider).Ok? ==> UniqueIds(AddCodexProvider(Presets(ps), provider).value)
  {
    if !HasId(ps, provider.id) {
      var r := ps + [provider];
      forall i, j | 0 <= i < j < |r|
        ensures r[i].id != r[j].id
      {
        if j == |ps| {
          assert r[i] == ps[i];
        }
      }
    }
  }

  lemma {:induction false} WithoutIdAbsent(ps: seq<CodexProvider>, id: string)
    requires forall i :: 0 <= i < |ps| ==> ps[i].id != id
    ensures WithoutId(ps, id) == ps
    decreases |ps|
  {
    if ps != [] {
      var init := ps[..|ps| - 1];
      var last := ps[|ps| - 1];
      assert forall i :: 0 <= i < |init| ==> init[i] == ps[i];
      WithoutIdAbsent(init, id);
      calc {
        WithoutId(ps, id);
        WithoutId(init, id) + [last];
        init + [last];
        ps;
      }
    }
  }

  /** Deleting a preset that was just added gives back the list from before. */
  lemma DeleteUndoesAdd(ps: seq<CodexProvider>, provider: CodexProvider)
    requires AddCodexProvider(Presets(ps), provider).Ok?
    ensures DeleteCodexProvider(Presets(AddCodexProvider(Presets(ps), provider).value), provider.id) == Ok(ps)
  {
    var added := ps + [provider];
    assert added[..|added| - 1] == ps;
    assert forall i :: 0 <= i < |ps| ==> ps[i].id != provider.id;
    WithoutIdAbsent(ps, provider.id);
    assert WithoutId(added, provider.id) == ps;
    assert |ps| != |added|;
  }

  /** Updating keeps the ids, and so their uniqueness. */
  lemma UpdateKeepsIds(ps: seq<CodexProvider>, provider: CodexProvider)
    requires UniqueIds(ps)
    ensures UpdateCodexProvider(Presets(ps), provider).Ok? ==>
      var r := UpdateCodexProvider(Presets(ps), provider).value;
      UniqueIds(r) && forall i :: 0 <= i < |r| ==> r[i].id == ps[i].id
  {
  }
}
