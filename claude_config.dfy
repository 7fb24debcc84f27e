/** Claude settings edits (`claude/config.rs`): the installation test on the output of
    `claude --version`, the shallow merge that saves `settings.json`, the thinking-mode
    switch kept in `env.MAX_THINKING_TOKENS`, the permission configuration check and
    the parsing of the WSL mode. `expand_user_path` is the one of `CodexConfig`. */
module ClaudeConfig {
  import opened Wrappers
  import opened Json
  import opened Text

  // ---------------------------------------------------------------------------
  // Installation check
  // ---------------------------------------------------------------------------

  const MARKER: string := "Claude Code"

  /** `is_installed` of `check_claude_version`: the output names the CLI, with or
      without parentheses, and the command succeeded. */
  predicate IsInstalled(stdout: string, success: bool) {
    (Contains(stdout, "(" + MARKER + ")") || Contains(stdout, MARKER)) && success
  }

  /** A string holding `p` holds `p` without its first character. */
  lemma {:induction false} ContainsTail(s: string, p: string)
    requires |p| > 0 && Contains(s, p)
    ensures Contains(s, p[1..])
    decreases |s|
  {
    if StartsWith(s, p) {
      assert s[1..][..|p| - 1] == p[1..];
    } else {
      ContainsTail(s[1..], p);
    }
  }

  /** A string holding `p` holds every prefix of `p`. */
  lemma {:induction false} ContainsPrefix(s: string, p: string, n: nat)
    requires n <= |p| && Contains(s, p)
    ensures Contains(s, p[..n])
    decreases |s|
  {
    if StartsWith(s, p) {
      assert s[..n] == p[..n];
    } else {
      ContainsPrefix(s[1..], p, n);
    }
  }

  /** The parenthesised marker adds nothing: installed exactly when the output
      contains `Claude Code` and the command succeeded. */
  lemma InstalledIffMarker(stdout: string, success: bool)
    ensures IsInstalled(stdout, success) <==> Contains(stdout, MARKER) && success
  {
    var p := "(" + MARKER + ")";
    if Contains(stdout, p) {
      ContainsTail(stdout, p);
      ContainsPrefix(stdout, p[1..], |MARKER|);
      assert p[1..][..|MARKER|] == MARKER;
    }
  }

  // ---------------------------------------------------------------------------
  // Saving settings.json
  // ---------------------------------------------------------------------------

  /** Every key of `incoming` written over `existing`. */
  function ShallowMerge(existing: map<string, Json>, incoming: map<string, Json>): (r: map<string, Json>)
    ensures r.Keys == existing.Keys + incoming.Keys
    ensures forall k :: k in incoming ==> r[k] == incoming[k]
    ensures forall k :: k in existing && k !in incoming ==> r[k] == existing[k]
  {
    map k | k in existing.Keys + incoming.Keys :: if k in incoming then incoming[k] else existing[k]
  }

  /** The document that `save_claude_settings` writes, as a specification. */
  function SavedSettings(file: JsonFile, incoming: Json): Json {
    var existing := match file case Absent => JObj(map[]) case Present(p) => p.GetOr(JObj(map[]));
    if existing.JObj? && incoming.JObj? then JObj(ShallowMerge(existing.fields, incoming.fields))
    else incoming
  }

  /** `save_claude_settings`: a missing or unreadable file counts as `{}`; when both
      documents are objects the new keys are written over the old ones, otherwise the
      new document replaces the old. */
  method SaveClaudeSettings(file: JsonFile, incoming: Json) returns (r: Json)
    ensures r == SavedSettings(file, incoming)
  {
    var existing := JObj(map[]);
    if file.Present? && file.parsed.Some? {
      existing := file.parsed.value;
    }
    if existing.JObj? && incoming.JObj? {
      var fields := existing.fields;
      var pending := incoming.fields.Keys;
      while pending != {}
        invariant pending <= incoming.fields.Keys
        invariant fields.Keys == existing.fields.Keys + (incoming.fields.Keys - pending)
        invariant forall k :: k in fields ==>
          fields[k] == (if k in incoming.fields && k !in pending then incoming.fields[k] else existing.fields[k])
        decreases pending
      {
        var k :| k in pending;
        fields := fields[k := incoming.fields[k]];
        pending := pending - {k};
      }
      assert fields == ShallowMerge(existing.fields, incoming.fields);
      r := JObj(fields);
    } else {
      r := incoming;
    }
  }

  /** Keys the new document does not mention survive a save. */
  lemma SaveKeepsUnknownKeys(file: JsonFile, incoming: Json, k: string)
    requires file.Present? && file.parsed.Some? && file.parsed.value.JObj? && incoming.JObj?
    requires k in file.parsed.value.fields && k !in incoming.fields
    ensures SavedSettings(file, incoming).JObj?
    ensures k in SavedSettings(file, incoming).fields
    ensures SavedSettings(file, incoming).fields[k] == file.parsed.value.fields[k]
  {
  }

  /** Saving the same document again changes nothing. */
  lemma SaveIdempotent(file: JsonFile, incoming: Json)
    ensures SavedSettings(Present(Some(SavedSettings(file, incoming))), incoming) == SavedSettings(file, incoming)
  {
    var once := SavedSettings(file, incoming);
    if once.JObj? && incoming.JObj? {
      assert ShallowMerge(once.fields, incoming.fields) == once.fields;
    }
  }

  /** Without a readable file an object is saved as given. */
  lemma SaveFresh(incoming: Json)
    requires incoming.JObj?
    ensures SavedSettings(Absent, incoming) == incoming
  {
    assert ShallowMerge(map[], incoming.fields) == incoming.fields;
  }

  // ---------------------------------------------------------------------------
  // Thinking mode
  // ---------------------------------------------------------------------------

  const MAX_THINKING_TOKENS: string := "MAX_THINKING_TOKENS"
  const ALWAYS_THINKING: string := "alwaysThinkingEnabled"
  const DEFAULT_THINKING_TOKENS: nat := 31999

  /** `update_thinking_mode`: an unparseable file is an error, a document that is not
      an object restarts as `{}`, `env` is created when missing and must be an
      object; the budget is written as a decimal string or removed, and the
      deprecated `alwaysThinkingEnabled` key is dropped. */
  method UpdateThinkingMode(file: JsonFile, enabled: bool, tokens: Option<nat>) returns (r: Result<Json>)
    requires tokens.Some? ==> tokens.value <= U32_MAX
    ensures r.Err? <==>
      || (file.Present? && file.parsed.None?)
      || (file.Present? && file.parsed.Some? && file.parsed.value.JObj? &&
          "env" in file.parsed.value.fields && !file.parsed.value.fields["env"].JObj?)
    ensures r.Ok? ==>
      var before := if file.Present? && file.parsed.value.JObj? then file.parsed.value.fields else map[];
      && r.value.JObj?
      && ALWAYS_THINKING !in r.value.fields
      && GetObj(r.value, "env").Some?
      && (enabled <==> MAX_THINKING_TOKENS in GetObj(r.value, "env").value)
      && (enabled ==> GetObj(r.value, "env").value[MAX_THINKING_TOKENS] == JStr(NatToString(tokens.GetOr(DEFAULT_THINKING_TOKENS))))
      && (forall k :: k != "env" && k != ALWAYS_THINKING ==>
            (k in r.value.fields <==> k in before) && (k in before ==> r.value.fields[k] == before[k]))
      && (forall k :: k != MAX_THINKING_TOKENS ==>
            (k in GetObj(r.value, "env").value <==> GetObj(JObj(before), "env").Some? && k in GetObj(JObj(before), "env").value) &&
            (k in GetObj(r.value, "env").value ==> GetObj(r.value, "env").value[k] == GetObj(JObj(before), "env").value[k]))
  {
    var settings := JObj(map[]);
    if file.Present? {
      if file.parsed.None? {
        return Err("Failed to parse settings");
      }
      settings := file.parsed.value;
    }
    if !settings.JObj? {
      settings := JObj(map[]);
    }
    var obj := settings.fields;
    if "env" !in obj {
      obj := obj["env" := JObj(map[])];
    }
    if !obj["env"].JObj? {
      return Err("env is not an object");
    }
    var env := obj["env"].fields;
    if enabled {
      var value := tokens.GetOr(DEFAULT_THINKING_TOKENS);
      env := env[MAX_THINKING_TOKENS := JStr(NatToString(value))];
    } else {
      env := env - {MAX_THINKING_TOKENS};
    }
    obj := obj["env" := JObj(env)];
    if ALWAYS_THINKING in obj {
      obj := obj - {ALWAYS_THINKING};
    }
    return Ok(JObj(obj));
  }

  /** The stored budget reads back as a `u32`: the requested one, or 31999. */
  lemma ThinkingBudgetReadsBack(tokens: Option<nat>)
    requires tokens.Some? ==> tokens.value <= U32_MAX
    ensures ParseU32(NatToString(tokens.GetOr(DEFAULT_THINKING_TOKENS))) == Some(tokens.GetOr(DEFAULT_THINKING_TOKENS))
  {
    ParsePrinted(tokens.GetOr(DEFAULT_THINKING_TOKENS));
  }

  // ---------------------------------------------------------------------------
  // Permission configuration
  // ---------------------------------------------------------------------------

  /** The permission modes; only read-only is singled out by the check. */
  datatype PermissionMode = ReadOnly | OtherMode

  datatype PermissionConfig = PermissionConfig(
    allowedTools: seq<string>,
    disallowedTools: seq<string>,
    permissionMode: PermissionMode,
    enableDangerousSkip: bool)

  /** The reported problems: an error names the conflicting tools. */
  datatype Problem = ToolConflict(tools: set<string>) | DangerousSkip | ReadOnlyWithWriteTools

  datatype Validation = Validation(valid: bool, warnings: seq<Problem>, errors: seq<Problem>)

  /** Tools both allowed and disallowed. */
  function Conflicts(config: PermissionConfig): (r: set<string>)
    ensures forall t :: t in r <==> t in config.allowedTools && t in config.disallowedTools
  {
    set t | t in config.allowedTools && t in config.disallowedTools
  }

  /** `validate_permission_config`: a conflict is the only error and the only thing
      that makes the configuration invalid; the dangerous skip and write tools in
      read-only mode are warnings. */
  method ValidatePermissionConfig(config: PermissionConfig) returns (r: Validation)
    ensures !r.valid <==> exists t :: t in config.allowedTools && t in config.disallowedTools
    ensures r.errors == (if r.valid then [] else [ToolConflict(Conflicts(config))])
    ensures DangerousSkip in r.warnings <==> config.enableDangerousSkip
    ensures ReadOnlyWithWriteTools in r.warnings <==>
      config.permissionMode == ReadOnly && ("Write" in config.allowedTools || "Edit" in config.allowedTools)
    ensures r.warnings ==
      (if config.enableDangerousSkip then [DangerousSkip] else []) +
      (if config.permissionMode == ReadOnly && ("Write" in config.allowedTools || "Edit" in config.allowedTools)
       then [ReadOnlyWithWriteTools] else [])
  {
    r := Validation(true, [], []);
    var conflicts := Conflicts(config);
    if conflicts != {} {
      r := r.(valid := false, errors := r.errors + [ToolConflict(conflicts)]);
    }
    if config.enableDangerousSkip {
      r := r.(warnings := r.warnings + [DangerousSkip]);
    }
    if config.permissionMode == ReadOnly && ("Write" in config.allowedTools || "Edit" in config.allowedTools) {
      r := r.(warnings := r.warnings + [ReadOnlyWithWriteTools]);
    }
  }

  // ---------------------------------------------------------------------------
  // WSL mode
  // ---------------------------------------------------------------------------

  datatype ClaudeMode = Auto | Native | Wsl

  /** The mode parsing of `set_claude_wsl_mode_config`, case-insensitive. */
  function ParseClaudeMode(mode: string): (r: Result<ClaudeMode>)
    ensures r.Ok? <==> ToLowerAscii(mode) in {"auto", "native", "wsl"}
    ensures r == Ok(Auto) <==> ToLowerAscii(mode) == "auto"
    ensures r == Ok(Native) <==> ToLowerAscii(mode) == "native"
    ensures r == Ok(Wsl) <==> ToLowerAscii(mode) == "wsl"
  {
    var lower := ToLowerAscii(mode);
    if lower == "auto" then Ok(Auto)
    else if lower == "native" then Ok(Native)
    else if lower == "wsl" then Ok(Wsl)
    else Err("Invalid mode: " + mode + ". Use 'auto', 'native', or 'wsl'")
  }

  /** Lowering twice is lowering once. */
  lemma LowerIdempotent(s: string)
    ensures ToLowerAscii(ToLowerAscii(s)) == ToLowerAscii(s)
  {
    var l := ToLowerAscii(s);
    forall i | 0 <= i < |s|
      ensures ToLowerAsciiChar(l[i]) == l[i]
    {
    }
  }

  /** The case of the input does not matter: a lowered mode parses the same. */
  lemma ModeCaseInsensitive(mode: string)
    ensures ParseClaudeMode(ToLowerAscii(mode)).Ok? == ParseClaudeMode(mode).Ok?
    ensures ParseClaudeMode(mode).Ok? ==> ParseClaudeMode(ToLowerAscii(mode)) == ParseClaudeMode(mode)
  {
    LowerIdempotent(mode);
  }
}
