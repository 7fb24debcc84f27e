# Any-code desktop back end: a verified model of its decision logic

Any-code is a desktop application that drives the Claude Code and Codex command-line
agents. Its Rust back end locates the `claude` executable, starts and cancels agent
sessions and streams their output to the frontend. It also keeps the list of hidden
projects, counts Codex token usage, and edits the JSON and TOML configuration files
of both agents and of third-party API providers.

This project models the sequential logic inside those commands, module by module:

- `CliRunner` (`cli_runner.dfy`) covers the session runner. It decides how a prompt
  reaches the child: a slash command becomes `-p <prompt>`, anything else goes to
  stdin. It also covers the model alias map, the `-c` and `--resume <id>` argument
  layout, and how each stdout line is classified and forwarded (session capture,
  token usage, live output, generic and session events). The process registry is a
  list of runs. The single legacy slot is a field that a spawn kills and replaces.
  Cancellation runs three tiers (registry, then legacy slot, then OS process tree),
  and a failed resume falls back once to continue. The concurrent reader and waiter
  tasks are steps on one `Runtime` value. The class `ClaudeRuntime` holds that state
  and changes it in place, one command or one task iteration per method, and each
  method is proved equal to its step function.
- `ClaudeBinary` (`claude_binary.dfy`) covers executable discovery: the Node and CLI
  version comparators, best-candidate selection, case-insensitive candidate
  de-duplication (`CandidateCollector`), the PATH merge at start-up, the alias list,
  the source ranking and the `.npmrc` prefix lookup.
- `ProjectStore` (`project_store.dfy`) covers the hidden-projects list (class
  `HiddenProjects`: hide, restore, purge and the corruption guard), the merge of
  project directories that share a working directory, the batch-delete counters and
  the macOS path clean-up.
- `CodexUsage` (`codex_usage.dfy`) covers the per-line token accumulator of a Codex
  session log, including the conversion of cumulative reports into deltas. It also
  covers model and first-message extraction, and the integer statistics by model,
  day and project.
- `CodexConfig` (`codex_config.dfy`) covers user path expansion, the per-tool binary
  override, reading the API key and model, the auth and TOML merges on a provider
  switch, and the provider preset list.
- `ClaudeConfig` (`claude_config.dfy`) covers the installation test, the settings
  merge, the thinking-mode switch, permission validation and the WSL mode parse.
- `Provider` (`provider.dfy`) covers the Anthropic variables in the `env` object of
  the Claude settings, `apiKeyHelper`, and the legacy provider list.
- `Wrappers`, `Json`, `Text` and `Lists` are shared vocabulary. They hold
  Option/Result, a JSON value with serde-style accessors, Unicode `trim`, splitting,
  UTF-8 length and `u32` parsing, and order-keeping de-duplication.
- `RunnerExitFinding` (`runner_exit_finding.dfy`) holds the trace of the finding
  below.

File contents, subprocess answers, the clock, environment lookups and the JSON and
TOML parsers are inputs to the model: values, `Option`s or oracle functions. Writing
a file is returning the new document.

Two behaviours of the code that are easy to misread, modelled as the code has them:

- The first line of a Codex session file is read only as the header. It is not fed
  to the accumulator loop, so a `model` in the header's payload is never taken.
- `extract_api_key_from_auth` is decided by the first of its three keys that is
  present. A present key with a non-string value gives no key at all; the later keys
  are not tried.

## Model

| member | source | states |
|---|---|---|
| CliRunner.PlanLaunch | src-tauri/src/commands/claude/cli_runner.rs:672-717 | the built arguments are kept in front; the prompt is delivered exactly once; stdin is left empty exactly when the prompt is a slash command, which then travels as the trailing `-p <prompt>` |
| CliRunner.SlashCommandExample | src-tauri/src/commands/claude/cli_runner.rs:652-655 | a slash command surrounded by white space (a trailing newline included) is still a slash command, since the test is made on the trimmed prompt |
| CliRunner.MultiLineIsNotSlashCommand | src-tauri/src/commands/claude/cli_runner.rs:652-655 | a prompt that starts with '/' but spans two lines is not a slash command |
| CliRunner.MapModelToClaudeAlias | src-tauri/src/commands/claude/cli_runner.rs:81-90 | `sonnet1m` maps to `sonnet[1m]`; every other model id maps to itself |
| CliRunner.ContinueArgs | src-tauri/src/commands/claude/cli_runner.rs:384-385 | continue arguments are `-c` followed by the built arguments in their order |
| CliRunner.ResumeArgs | src-tauri/src/commands/claude/cli_runner.rs:463-465 | resume arguments are `--resume`, then the session id, then the built arguments in their order |
| CliRunner.InitSessionId | src-tauri/src/commands/claude/cli_runner.rs:768-789 | a line announces a session exactly when it has `type` `system`, `subtype` `init` and a string `session_id`, and the id is that string |
| CliRunner.UsageTotal | src-tauri/src/commands/claude/cli_runner.rs:839-858 | a usage total exists exactly when both `input_tokens` and `output_tokens` of `usage` are unsigned 64-bit integers; it is their sum modulo 2^64 |
| CliRunner.AppendLive | src-tauri/src/commands/claude/cli_runner.rs:889-891 | appending live output touches only the run with that id, adding the line at its end; an unknown id changes nothing |
| CliRunner.Unregister | src-tauri/src/commands/claude/cli_runner.rs:974-976 | unregistering removes every run with that id and keeps every other run, in order |
| CliRunner.FindBySession | src-tauri/src/commands/claude/cli_runner.rs:523-525 | a lookup by session returns a registered run of that session, and nothing exactly when no run has it |
| CliRunner.SessionOutput | src-tauri/src/commands/claude/cli_runner.rs:638-648 | the output of a session is the buffered output of one of its runs, or empty when the session is unknown |
| CliRunner.CaptureSession | src-tauri/src/commands/claude/cli_runner.rs:768-836 | the init branch changes only the holders, the registry and the events; it appends events and none of them is a generic output line |
| CliRunner.ReportUsage | src-tauri/src/commands/claude/cli_runner.rs:839-885 | the usage branch adds at most one event, and only when the session is known and the line has a usage total, which is the total forwarded |
| CliRunner.ForwardLine | src-tauri/src/commands/claude/cli_runner.rs:888-898 | every line is emitted on the session channel when the session is known, then on the generic channel; it is buffered only when a run is registered |
| CliRunner.StdoutStepRouters | src-tauri/src/commands/claude/cli_runner.rs:761-900 | a stdout line changes only its own process's holders; the first init line sets the session id and a known session id never changes |
| CliRunner.StderrStep | src-tauri/src/commands/claude/cli_runner.rs:904-915 | a stderr line ends with a generic error event and changes nothing but the events, so it never reaches live output |
| CliRunner.SpawnStep | src-tauri/src/commands/claude/cli_runner.rs:660-760 | every spawn records its launch; a successful one kills the previous slot occupant, puts the new child in the slot and gives it fresh holders; a failed one changes nothing else |
| CliRunner.ExitStep | src-tauri/src/commands/claude/cli_runner.rs:923-980 | the exit waiter as written: it empties the slot, completes with its own session id whatever child it found, emits nothing when the slot was empty, and unregisters exactly its own run |
| CliRunner.ExitStepOwned | src-tauri/src/commands/claude/cli_runner.rs:923-980 | the corrected exit waiter: it completes with its own status and empties the slot only when the slot holds its own child; a child a newer spawn killed and replaced is completed as failed under its own session and the newer child stays; a child a cancel took gets nothing more |
| CliRunner.CancelCascade | src-tauri/src/commands/claude/cli_runner.rs:519-601 | the registry tier runs exactly when the session is registered, the legacy tier exactly when the slot is occupied and not yet killed, the tree kill exactly when the legacy kill failed and a pid is known; killed exactly when a tier that ran succeeded |
| CliRunner.RunKillCascade | src-tauri/src/commands/claude/cli_runner.rs:519-601 | the tier-by-tier cancellation procedure reports exactly what the cascade specification says |
| CliRunner.CancelStep | src-tauri/src/commands/claude/cli_runner.rs:510-626 | cancel always emits cancelled then complete(false), generically and for a given session; it takes the slot only when the legacy tier runs, and never changes the registry |
| CliRunner.ContinueStep | src-tauri/src/commands/claude/cli_runner.rs:335-396 | continue fails without launching when the command cannot be prepared; otherwise it is a spawn with the continue arguments |
| CliRunner.ResumeFallback | src-tauri/src/commands/claude/cli_runner.rs:479-505 | resume launches `--resume <id>` first; only a failed resume spawn adds exactly one `-c` launch with the same prompt and arguments; the result is Ok exactly when one of them spawned |
| CliRunner.EveryLineForwarded | src-tauri/src/commands/claude/cli_runner.rs:888-898 | over a whole stream, the generic channel receives every stdout line once and in order |
| CliRunner.FirstInitWins | src-tauri/src/commands/claude/cli_runner.rs:768-796 | after a stream, the session id is the one already known, or else that of the first init line |
| CliRunner.RegisteredAtMostOnce | src-tauri/src/commands/claude/cli_runner.rs:790-833 | a process adds at most one run to the registry, and none once its session is known |
| CliRunner.LiveOutputFollowsStream | src-tauri/src/commands/claude/cli_runner.rs:889-891 | once registered, a process's run buffers every later line in order, and every other run is unchanged |
| CliRunner.RegistrationAtInit | src-tauri/src/commands/claude/cli_runner.rs:790-833 | before the init line a line is only emitted generically; the init line registers a fresh run whose buffer starts with that line |
| CliRunner.SpawnKeepsInv | src-tauri/src/commands/claude/cli_runner.rs:736-745 | a spawn keeps the runtime invariant: run ids below the counter and increasing, handles allocated, the slot's child known |
| CliRunner.StdoutKeepsInv | src-tauri/src/commands/claude/cli_runner.rs:761-900 | a stdout line keeps the runtime invariant |
| CliRunner.CaptureKeepsInv | src-tauri/src/commands/claude/cli_runner.rs:790-833 | registration at the init line keeps the runtime invariant |
| CliRunner.ExitKeepsInv | src-tauri/src/commands/claude/cli_runner.rs:923-980 | the exit waiter as written keeps the runtime invariant |
| CliRunner.ExitOwnedKeepsInv | src-tauri/src/commands/claude/cli_runner.rs:923-980 | the corrected exit waiter keeps the runtime invariant |
| CliRunner.CancelKeepsInv | src-tauri/src/commands/claude/cli_runner.rs:510-626 | cancel keeps the runtime invariant |
| CliRunner.ClaudeRuntime.constructor | src-tauri/src/commands/claude/cli_runner.rs:22-28 | the runner starts with no runs, no holders, an empty slot and no events |
| CliRunner.ClaudeRuntime.Spawn | src-tauri/src/commands/claude/cli_runner.rs:660-983 | the in-place spawn leaves exactly the state of the spawn step and keeps the invariant |
| CliRunner.ClaudeRuntime.OnStdoutLine | src-tauri/src/commands/claude/cli_runner.rs:761-900 | one iteration of the stdout reader leaves exactly the state of the stdout step and keeps the invariant |
| CliRunner.ClaudeRuntime.CaptureInit | src-tauri/src/commands/claude/cli_runner.rs:768-836 | the init branch, run in place, equals its step |
| CliRunner.ClaudeRuntime.ReportTokens | src-tauri/src/commands/claude/cli_runner.rs:839-885 | the usage branch, run in place, equals its step |
| CliRunner.ClaudeRuntime.Forward | src-tauri/src/commands/claude/cli_runner.rs:888-898 | buffering and emission, run in place, equal their step |
| CliRunner.ClaudeRuntime.OnStderrLine | src-tauri/src/commands/claude/cli_runner.rs:904-915 | one iteration of the stderr reader equals its step and keeps the invariant |
| CliRunner.ClaudeRuntime.OnExit | src-tauri/src/commands/claude/cli_runner.rs:923-980 | the exit waiter as written, in place, equals its step and keeps the invariant |
| CliRunner.ClaudeRuntime.OnExitOwned | src-tauri/src/commands/claude/cli_runner.rs:923-980 | the corrected exit waiter, in place, equals its step and keeps the invariant |
| CliRunner.ClaudeRuntime.Report | src-tauri/src/commands/claude/cli_runner.rs:930-970 | a waiter's notifications are appended: session stopped and the session's completion when the session is known, then the generic completion, all with the child's outcome; nothing else changes |
| CliRunner.ClaudeRuntime.Cancel | src-tauri/src/commands/claude/cli_runner.rs:510-626 | cancel, in place, equals its step and report and keeps the invariant |
| CliRunner.ClaudeRuntime.Continue | src-tauri/src/commands/claude/cli_runner.rs:335-396 | continue, in place, equals its step and keeps the invariant |
| CliRunner.ClaudeRuntime.Resume | src-tauri/src/commands/claude/cli_runner.rs:401-506 | resume with its fallback, in place, equals its step and keeps the invariant |
| RunnerExitFinding.OverlapShape | src-tauri/src/commands/claude/cli_runner.rs:736-745 | two spawns that each announce a session before either exits leave the second child in the slot and both sessions known |
| RunnerExitFinding.ReplacedSessionNeverCompletes | src-tauri/src/commands/claude/cli_runner.rs:923-980 | in that state the waiters as written emit only one completion, carrying the first session's id, and none for the second session whatever its exit status |
| RunnerExitFinding.CompletionsOfReport | src-tauri/src/commands/claude/cli_runner.rs:930-970 | one waiter's report completes its own session exactly once, with its status, and no other session |
| RunnerExitFinding.WrittenExitMissesReplacement | src-tauri/src/commands/claude/cli_runner.rs:923-980 | in that state the waiters as written complete the second session zero times |
| RunnerExitFinding.OwnedExitCompletesEach | src-tauri/src/commands/claude/cli_runner.rs:923-980 | in that state the corrected waiters, in either order, complete each session exactly once under its own id: the replaced first child as failed and the second with its own status; the first waiter leaves the second child in the slot |
| ClaudeBinary.ComparePaddedLoop | src-tauri/src/claude_binary.rs:415-423 | the comparison loop over `0..max(len)`, missing parts read as 0, computes the padded comparison |
| ClaudeBinary.ComparePaddedEqual | src-tauri/src/claude_binary.rs:415-423 | two part lists compare Equal exactly when they agree at every index once padded with zeros |
| ClaudeBinary.ComparePaddedAntisymmetric | src-tauri/src/claude_binary.rs:415-423 | swapping the arguments reverses the result |
| ClaudeBinary.ComparePaddedTransitive | src-tauri/src/claude_binary.rs:415-423 | the padded comparison is transitive, strictly where one step is strict |
| ClaudeBinary.TrailingZerosIgnored | src-tauri/src/claude_binary.rs:404-424 | appending zero parts gives an equal version |
| ClaudeBinary.CompareNodeVersions | src-tauri/src/claude_binary.rs:404-424 | the Node comparator computes the order of the padded numeric parts after stripping a leading `v` |
| ClaudeBinary.NodeVersionOrderTotal | src-tauri/src/claude_binary.rs:404-424 | the Node order is reflexive, antisymmetric and transitive |
| ClaudeBinary.NodeV22IsNode22 | src-tauri/src/claude_binary.rs:404-424 | `v22` compares Equal to `22.0.0` |
| ClaudeBinary.CompareVersions | src-tauri/src/claude_binary.rs:2200-2236 | the CLI comparator computes the order of the padded parts, each reduced to its leading digits |
| ClaudeBinary.VersionOrderTotal | src-tauri/src/claude_binary.rs:2200-2236 | the CLI version order is reflexive, antisymmetric and transitive |
| ClaudeBinary.CliPartsBeta | src-tauri/src/claude_binary.rs:2202-2223 | `1.0.17-beta` has the parts 1, 0, 17 |
| ClaudeBinary.BetaEqualsRelease | src-tauri/src/claude_binary.rs:2200-2236 | `1.0.17-beta` compares Equal to `1.0.17` |
| ClaudeBinary.CandidateOrderAntisymmetric | src-tauri/src/claude_binary.rs:862-871 | the sort comparator of the selection reverses when its arguments are swapped |
| ClaudeBinary.CandidateOrderTransitive | src-tauri/src/claude_binary.rs:862-871 | the sort comparator is transitive for a strict first step |
| ClaudeBinary.SelectBestWithPriority | src-tauri/src/claude_binary.rs:859-874 | the selection is None exactly for no candidates; otherwise it is the first candidate that no other beats, which a stable sort puts first |
| ClaudeBinary.FirstBestUnique | src-tauri/src/claude_binary.rs:859-874 | that first-best position is unique, so the selection is determined |
| ClaudeBinary.FirstBestRanks | src-tauri/src/claude_binary.rs:862-871 | the chosen candidate has the minimum priority; among that priority it has a version when any has, and no version there is newer |
| ClaudeBinary.CandidateCollector.PushCandidate | src-tauri/src/claude_binary.rs:502-540 | the lowercase path is marked seen; the candidate is appended exactly when it was unseen and exists (a path) or answered `--version` (a bare name); listed paths stay unique case-insensitively |
| ClaudeBinary.MergedEntriesInStages | src-tauri/src/claude_binary.rs:150-194 | the merged PATH offers NVM paths, then the shell PATH, then the fallback paths, then the inherited PATH, first occurrence kept |
| ClaudeBinary.MergedEntriesSpec | src-tauri/src/claude_binary.rs:150-194 | the merged PATH has no duplicate, holds every offered entry, and no empty entry unless an NVM or fallback path was empty |
| ClaudeBinary.PushUnseen | src-tauri/src/claude_binary.rs:155-194 | each source loop appends exactly the unseen offered entries, skipping empty ones where the source does, and keeps `seen` equal to the entries so far |
| ClaudeBinary.InitShellPath | src-tauri/src/claude_binary.rs:144-207 | PATH becomes the merged entries joined with ':', and stays as inherited when nothing was collected |
| ClaudeBinary.ToolAliases | src-tauri/src/claude_binary.rs:892-904 | on Windows the `.exe`, `.cmd`, `.bat`, `.ps1` names, in that order, come before the bare name; elsewhere only the bare name; no alias repeats |
| ClaudeBinary.SourcePreference | src-tauri/src/claude_binary.rs:1281-1297 | every source ranks between 1 and 13 |
| ClaudeBinary.SourcePreferenceRanks | src-tauri/src/claude_binary.rs:1281-1297 | every `nvm…` source ranks 4, both yarn sources rank 8, and exactly the unknown sources rank 13 |
| ClaudeBinary.ExpandTilde | src-tauri/src/claude_binary.rs:381-390 | `~/x` becomes `home/x`, `~` becomes `home`, anything else is kept |
| ClaudeBinary.ReadNpmrcPrefix | src-tauri/src/claude_binary.rs:370-401 | an unreadable `.npmrc` gives nothing; otherwise the value of the first prefix line, trimmed, unquoted and tilde-expanded |
| ClaudeBinary.FirstPrefixLineWins | src-tauri/src/claude_binary.rs:374-396 | the first `prefix=` or `prefix =` line always yields a value and decides alone |
| ProjectStore.IndexOf | src-tauri/src/commands/claude/project_store.rs:362 | the position found is that of the first occurrence of the id |
| ProjectStore.RemoveAt | src-tauri/src/commands/claude/project_store.rs:363 | removing at a position drops exactly that one element |
| ProjectStore.HiddenProjects.constructor | src-tauri/src/commands/claude/project_store.rs:508-519 | a missing or unparsable hidden list loads as empty |
| ProjectStore.HiddenProjects.Hide | src-tauri/src/commands/claude/project_store.rs:348-358 | hiding reports true and appends exactly when the id was not hidden; otherwise it reports false and the list is unchanged |
| ProjectStore.HiddenProjects.Restore | src-tauri/src/commands/claude/project_store.rs:359-373 | restoring succeeds exactly when the id is hidden and removes only its first occurrence; otherwise it fails and the list is unchanged |
| ProjectStore.HiddenProjects.RemoveFromHidden | src-tauri/src/commands/claude/project_store.rs:609-627 | every entry equal to a given id is dropped, the rest keep their order, and the list is saved exactly when its length changed |
| ProjectStore.HiddenProjects.ApplySafetyCheck | src-tauri/src/commands/claude/project_store.rs:53-64 | the list is cleared exactly when there are projects and it is longer than their number; hiding exactly all projects is kept |
| ProjectStore.RestoreUndoesHide | src-tauri/src/commands/claude/project_store.rs:348-373 | restoring an id just hidden gives back the previous list |
| ProjectStore.WithoutAppend | src-tauri/src/commands/claude/project_store.rs:614 | the retain distributes over concatenation, so it keeps order |
| ProjectStore.WithoutKeepsLength | src-tauri/src/commands/claude/project_store.rs:613-617 | the length changes exactly when some entry was one of the dropped ids, and an unchanged length means an unchanged list |
| ProjectStore.ShouldUpdateIdSound | src-tauri/src/commands/claude/project_store.rs:563-578 | an id never replaces itself; a shorter id always replaces, a longer one never does |
| ProjectStore.AppendNewSessions | src-tauri/src/commands/claude/project_store.rs:552-557 | each incoming session not yet present is pushed, in order |
| ProjectStore.MergeAllSpec | src-tauri/src/commands/claude/project_store.rs:540-595 | a merged group keeps its first path, the latest activity of the group, an id from the group, and the group's sessions without repeats |
| ProjectStore.MergeAllSessions | src-tauri/src/commands/claude/project_store.rs:540-595 | the sessions merged into a group, de-duplicated, are all the group's sessions de-duplicated in order of appearance |
| ProjectStore.MergedSpec | src-tauri/src/commands/claude/project_store.rs:540-595 | the merge gives one project per normalized path and represents every input path |
| ProjectStore.MergedEntrySpec | src-tauri/src/commands/claude/project_store.rs:540-595 | every merged entry has its group's path key, the group's latest activity, one of its ids, and the duplicate-free union of its sessions |
| ProjectStore.InsertByActivity | src-tauri/src/commands/claude/project_store.rs:597 | inserting into a list sorted by activity keeps it sorted and adds exactly that project |
| ProjectStore.SortByActivity | src-tauri/src/commands/claude/project_store.rs:597 | the result is sorted by activity, most recent first, and is a permutation of the input |
| ProjectStore.AddProject | src-tauri/src/commands/claude/project_store.rs:540-583 | one loop turn either starts the entry of a new path or merges into the existing one, keeping the map equal to the merges so far |
| ProjectStore.CollectMerged | src-tauri/src/commands/claude/project_store.rs:586-595 | the map's values with their sessions de-duplicated are exactly the merged projects |
| ProjectStore.DeduplicateProjects | src-tauri/src/commands/claude/project_store.rs:532-607 | the output is sorted by activity, most recent first, and is a permutation of the merged projects |
| ProjectStore.Unhidden | src-tauri/src/commands/claude/project_store.rs:76-79 | a project directory is kept exactly when its id is not hidden |
| ProjectStore.ListProjects | src-tauri/src/commands/claude/project_store.rs:31-154 | the hidden list is cleared only as the safety check says; the result is the merge of the unhidden directories, sorted by activity |
| ProjectStore.Removed | src-tauri/src/commands/claude/project_store.rs:259-281 | the session files the batch has removed belong to ids of the batch; an id whose file an earlier call removed is not found |
| ProjectStore.BatchErrors | src-tauri/src/commands/claude/project_store.rs:324-339 | there is one error message for each id that was not deleted |
| ProjectStore.DeletedCountIsRemoved | src-tauri/src/commands/claude/project_store.rs:259-339 | the deleted count is the number of distinct session files removed, so it never exceeds the number of distinct ids |
| ProjectStore.RepeatedIdNotFound | src-tauri/src/commands/claude/project_store.rs:259-339 | an existing id given twice is deleted once and then reported as not found |
| ProjectStore.DeleteSessionsBatch | src-tauri/src/commands/claude/project_store.rs:315-347 | deleted plus failed equals the number of ids, there is one error per failure, in order, with the source's texts, and no more sessions are deleted than there are distinct ids |
| ProjectStore.NormalizeMacosPath | src-tauri/src/commands/claude/project_store.rs:687-706 | the in-place edits compute the normalized path |
| ProjectStore.MacosNormalized | src-tauri/src/commands/claude/project_store.rs:687-706 | normalizing never lengthens a path |
| ProjectStore.PrivateTmpIsTmp | src-tauri/src/commands/claude/project_store.rs:692-693 | a path under `/private/tmp/` normalizes like the same path under `/tmp/` |
| ProjectStore.MacosNormalizedTrailingSlash | src-tauri/src/commands/claude/project_store.rs:700-703 | unless the input ends in `//`, the result ends in '/' only when it is the root |
| CodexUsage.ToU64 | src-tauri/src/commands/codex/usage.rs:205-207 | a timestamp cast to `u64` is below 2^64 and unchanged when non-negative |
| CodexUsage.ToI64 | src-tauri/src/commands/codex/usage.rs:489 | a `u64` cast to `i64` lies in the signed 64-bit range |
| CodexUsage.TimestampRoundTrip | src-tauri/src/commands/codex/usage.rs:489 | every `i64` timestamp stored as `u64` reads back unchanged |
| CodexUsage.Field | src-tauri/src/commands/codex/usage.rs:257-262 | an unsigned 64-bit integer stored under the key counts as its value, and anything else, or no value, as 0 |
| CodexUsage.FirstEligibleText | src-tauri/src/commands/codex/usage.rs:365-386 | the first message is the text of the first eligible `input_text` item, and nothing exactly when no item is eligible |
| CodexUsage.FindFirstMessage | src-tauri/src/commands/codex/usage.rs:365-386 | the search over the content items, stopping at the first eligible text, computes that text |
| CodexUsage.ParseSessionForUsage | src-tauri/src/commands/codex/usage.rs:189-413 | the line loop with its accumulators computes the session that the header and the per-line step define |
| CodexUsage.ParseNeedsSessionMeta | src-tauri/src/commands/codex/usage.rs:194-207 | a session exists exactly when the first line is a `session_meta` with a string id and an RFC 3339 timestamp; the id and the creation time come from it |
| CodexUsage.ParseFoldsBody | src-tauri/src/commands/codex/usage.rs:233-236 | totals, model and first message are those the loop reaches over the lines after the header |
| CodexUsage.TokensNeverDecrease | src-tauri/src/commands/codex/usage.rs:254-358 | the token counters only grow |
| CodexUsage.TurnCompletedAdds | src-tauri/src/commands/codex/usage.rs:255-269 | `turn.completed` adds whichever usage fields are integers and leaves the cumulative baseline alone |
| CodexUsage.TokenCountCachedFallback | src-tauri/src/commands/codex/usage.rs:272-291 | a legacy `token_count` adds `cached_tokens` only when `cached_input_tokens` is absent |
| CodexUsage.LastUsagePreferred | src-tauri/src/commands/codex/usage.rs:308-323 | with a `last_token_usage` object the event adds it, missing fields as 0, and the baseline is unchanged |
| CodexUsage.TotalUsageDelta | src-tauri/src/commands/codex/usage.rs:325-358 | otherwise `total_token_usage` becomes the new baseline and adds, in each of input, output and cached separately, its growth since the baseline, or all of it after no report or when that field decreased |
| CodexUsage.CumulativeReportsAddFinal | src-tauri/src/commands/codex/usage.rs:336-358 | non-decreasing cumulative reports add exactly the growth from the baseline to the final report |
| CodexUsage.CumulativeSessionTotal | src-tauri/src/commands/codex/usage.rs:336-358 | a session made of non-decreasing cumulative reports counts exactly the final cumulative value |
| CodexUsage.ModelIsLastNamed | src-tauri/src/commands/codex/usage.rs:244-252 | the model is the last one named by a `session_meta`, `model_selected` or `turn_context` event |
| CodexUsage.ModelUnchangedWithoutNaming | src-tauri/src/commands/codex/usage.rs:226-252 | without such an event the model stays what it was, "unknown" at the start |
| CodexUsage.FirstMessageSetOnce | src-tauri/src/commands/codex/usage.rs:365 | once found, the first message never changes |
| CodexUsage.FirstMessageEligible | src-tauri/src/commands/codex/usage.rs:365-386 | a first message is always a non-blank user text without `<environment_context>` or `# AGENTS.md` |
| CodexUsage.FilterInclusive | src-tauri/src/commands/codex/usage.rs:488-497 | the date filter keeps exactly the sessions created on a day within both bounds, bounds included |
| CodexUsage.SelectSessionsErrors | src-tauri/src/commands/codex/usage.rs:478-500 | the selection fails exactly when both bounds are given and one does not parse; with a bound missing it is all sessions |
| CodexUsage.ModelEntrySnoc | src-tauri/src/commands/codex/usage.rs:518-536 | one more session changes only its model's entry: sums grow by its tokens, `total_tokens` is input plus output, the count grows by one |
| CodexUsage.ModelStored | src-tauri/src/commands/codex/usage.rs:519-530 | a model is in the table exactly when listed, and the table holds its entry, or the all-zero entry of `or_insert` |
| CodexUsage.ModelStatsStep | src-tauri/src/commands/codex/usage.rs:518-536 | after one more session the table holds its model's recomputed entry, and the model is listed once |
| CodexUsage.AddToModelStats | src-tauri/src/commands/codex/usage.rs:518-536 | the in-place entry update keeps the table equal to the per-model entries of the sessions so far |
| CodexUsage.ModelCountsSumToSessions | src-tauri/src/commands/codex/usage.rs:512-536 | the per-model session counts add up to the number of sessions |
| CodexUsage.DailyModelsDistinct | src-tauri/src/commands/codex/usage.rs:551-553 | a day lists each model used that day exactly once |
| CodexUsage.DailyEntrySnoc | src-tauri/src/commands/codex/usage.rs:539-553 | one more session changes only its day's entry: tokens grow by input plus output, its model is added if new |
| CodexUsage.DailyStored | src-tauri/src/commands/codex/usage.rs:539-548 | a day is in the table exactly when listed, and the table holds its entry, or an empty one |
| CodexUsage.DailyStatsStep | src-tauri/src/commands/codex/usage.rs:539-553 | after one more session the table holds its day's recomputed entry, and the day is listed once |
| CodexUsage.AddToDailyStats | src-tauri/src/commands/codex/usage.rs:539-553 | the in-place entry update keeps the table equal to the per-day entries of the sessions so far |
| CodexUsage.ProjectNameOfPlain | src-tauri/src/commands/codex/usage.rs:556-562 | a path without separators names itself |
| CodexUsage.ProjectNameAfterSeparator | src-tauri/src/commands/codex/usage.rs:556-562 | the project name is what follows the last `/` or `\` |
| CodexUsage.LatestUsedIsMax | src-tauri/src/commands/codex/usage.rs:563-582 | a project's `last_used` is one of its sessions' labels and no label is greater |
| CodexUsage.ProjectEntrySnoc | src-tauri/src/commands/codex/usage.rs:555-582 | one more session changes only its project's entry; its label replaces the stored one only when greater |
| CodexUsage.ProjectStored | src-tauri/src/commands/codex/usage.rs:555-577 | a project is in the table exactly when listed; its entry then has at least one session, and an absent project has none |
| CodexUsage.ProjectStatsStep | src-tauri/src/commands/codex/usage.rs:555-582 | after one more session the table holds its project's recomputed entry, and the path is listed once |
| CodexUsage.AddToProjectStats | src-tauri/src/commands/codex/usage.rs:555-582 | the in-place entry update keeps the table equal to the per-project entries of the sessions so far |
| CodexUsage.TallySessions | src-tauri/src/commands/codex/usage.rs:512-583 | the loop over the selected sessions computes the three sums and the three tables |
| CodexUsage.GetCodexUsageStats | src-tauri/src/commands/codex/usage.rs:465-607 | the statistics fail exactly when the date bounds do; `total_tokens` is input plus output, `total_sessions` is the number of selected sessions, which the per-model counts add up to, and each table is the entries of its groups |
| CodexConfig.PathJoin | src-tauri/src/commands/codex/config.rs:101-107 | joining onto an absolute base is absolute, and an absolute path replaces the base |
| CodexConfig.ExpandUserPath | src-tauri/src/commands/codex/config.rs:85-110 | blank input is an error; `~` forms without a home directory are an error |
| CodexConfig.ExpandTilde | src-tauri/src/commands/codex/config.rs:90-99 | `~` is the home directory and `~/x` is `home/x` |
| CodexConfig.ExpandAbsolute | src-tauri/src/commands/codex/config.rs:85-110 | an absolute path is kept as it is |
| CodexConfig.ExpandedIsAbsolute | src-tauri/src/commands/claude/config.rs:695-720 | every expanded path is absolute; the Claude settings use the same expansion as the Codex ones |
| CodexConfig.Loaded | src-tauri/src/commands/codex/config.rs:186-193 | a missing or unparseable override file reads as `{}` |
| CodexConfig.GetBinaryOverride | src-tauri/src/commands/codex/config.rs:244-257 | an override is read only from a string `override_path` in the tool's section |
| CodexConfig.UpdateBinaryOverride | src-tauri/src/commands/codex/config.rs:177-214 | a non-object root is an error; otherwise the tool's section is added or updated and every other section is unchanged |
| CodexConfig.ClearBinaryOverride | src-tauri/src/commands/codex/config.rs:217-241 | a missing file stays missing; an existing one is rewritten and stays an object exactly when it was one |
| CodexConfig.UpdateThenGet | src-tauri/src/commands/codex/config.rs:177-257 | after an update the override reads back as the new path |
| CodexConfig.OtherToolsUntouched | src-tauri/src/commands/codex/config.rs:177-257 | an update or a clear leaves the override of every other tool as it was |
| CodexConfig.ClearThenGet | src-tauri/src/commands/codex/config.rs:217-257 | after a clear no override reads back, and the rest of the tool's section survives |
| CodexConfig.ClearUndoesUpdate | src-tauri/src/commands/codex/config.rs:177-241 | clearing after an update leaves only the empty section the update created |
| CodexConfig.ExtractApiKey | src-tauri/src/commands/codex/config.rs:953-959 | a key found is the string value of the first of `OPENAI_API_KEY`, `OPENAI_KEY`, `API_KEY` that is present |
| CodexConfig.ApiKeyPreference | src-tauri/src/commands/codex/config.rs:953-959 | `OPENAI_API_KEY` decides when present, then `OPENAI_KEY`, then `API_KEY` |
| CodexConfig.ModelCapture | src-tauri/src/commands/codex/config.rs:974-978 | a capture comes from the leftmost position where `model = "…"` matches |
| CodexConfig.FirstModelLineDecides | src-tauri/src/commands/codex/config.rs:970-982 | the first line starting `model =` decides alone, even when its value does not match |
| CodexConfig.NoModelLine | src-tauri/src/commands/codex/config.rs:970-982 | without such a line there is no model |
| CodexConfig.CaptureAfterPrefix | src-tauri/src/commands/codex/config.rs:970-982 | a line `model = "v"` yields `v` |
| CodexConfig.MergeAuth | src-tauri/src/commands/codex/config.rs:1075-1111 | the API-key fields are dropped when the new auth sets none; each set new value overwrites; every other existing key survives (AuthMerged) |
| CodexConfig.MergeToml | src-tauri/src/commands/codex/config.rs:1132-1165 | the provider keys are removed, new keys override, and every other existing key survives (TomlMerged) |
| CodexConfig.SwitchCodexProvider | src-tauri/src/commands/codex/config.rs:1050-1170 | an unparseable non-blank config is the only error; without an existing config the new text is written verbatim and the new auth used as is; with an existing table it is TomlMerged with the new table, or with none for a blank config; with an existing auth object it is AuthMerged with the new auth, so stale API keys go when the new auth has none; the message names the provider |
| CodexConfig.AddCodexProvider | src-tauri/src/commands/codex/config.rs:1180-1222 | a duplicate id is refused; otherwise the preset is appended |
| CodexConfig.UpdateCodexProvider | src-tauri/src/commands/codex/config.rs:1226-1262 | the first preset with the id is replaced in place; no such preset is an error |
| CodexConfig.WithoutId | src-tauri/src/commands/codex/config.rs:1281-1286 | the retain keeps exactly the presets with another id, and shortens the list exactly when the id was present |
| CodexConfig.DeleteCodexProvider | src-tauri/src/commands/codex/config.rs:1266-1296 | every preset with the id is removed; removing none is an error |
| CodexConfig.AddKeepsIdsUnique | src-tauri/src/commands/codex/config.rs:1180-1222 | adding keeps the preset ids unique |
| CodexConfig.DeleteUndoesAdd | src-tauri/src/commands/codex/config.rs:1180-1296 | deleting a preset just added gives back the previous list |
| CodexConfig.UpdateKeepsIds | src-tauri/src/commands/codex/config.rs:1226-1262 | updating keeps every id in place, so uniqueness is kept |
| ClaudeConfig.InstalledIffMarker | src-tauri/src/commands/claude/config.rs:258-264 | installed exactly when the output contains `Claude Code` and the command succeeded |
| ClaudeConfig.ShallowMerge | src-tauri/src/commands/claude/config.rs:331-342 | every new key is written, and every other existing key is kept |
| ClaudeConfig.SaveClaudeSettings | src-tauri/src/commands/claude/config.rs:294-362 | the saved document is the shallow merge when both are objects, and the new document otherwise |
| ClaudeConfig.SaveKeepsUnknownKeys | src-tauri/src/commands/claude/config.rs:331-342 | keys the new document does not mention survive a save |
| ClaudeConfig.SaveIdempotent | src-tauri/src/commands/claude/config.rs:331-342 | saving the same document again changes nothing |
| ClaudeConfig.SaveFresh | src-tauri/src/commands/claude/config.rs:310-321 | without a readable file an object is saved as given |
| ClaudeConfig.UpdateThinkingMode | src-tauri/src/commands/claude/config.rs:365-434 | errors exactly for an unparseable file or a non-object `env`; otherwise the budget is set (31999 by default) exactly when enabled, `alwaysThinkingEnabled` is gone and every other key is kept |
| ClaudeConfig.ThinkingBudgetReadsBack | src-tauri/src/commands/claude/config.rs:401-412 | the stored budget parses back as the requested `u32`, or 31999 |
| ClaudeConfig.Conflicts | src-tauri/src/commands/claude/config.rs:898-901 | the conflicts are exactly the tools both allowed and disallowed |
| ClaudeConfig.ValidatePermissionConfig | src-tauri/src/commands/claude/config.rs:888-939 | invalid exactly when some tool is both allowed and disallowed, which is the only error; the warnings are exactly the dangerous-skip warning when it is enabled, followed by the read-only warning when write tools are allowed in read-only mode |
| ClaudeConfig.ParseClaudeMode | src-tauri/src/commands/claude/config.rs:1087-1097 | `auto`, `native` and `wsl` parse in any letter case, and anything else is an error |
| ClaudeConfig.ModeCaseInsensitive | src-tauri/src/commands/claude/config.rs:1087-1097 | a mode and its lower-case form parse alike |
| Provider.LoadSettings | src-tauri/src/commands/provider.rs:56-80 | a missing file reads as `{"env": {}}`, an unparseable one is an error, anything else is its parse |
| Provider.EnvOf | src-tauri/src/commands/provider.rs:203-207 | the `env` object, or nothing when it is missing or not an object |
| Provider.EnvStr | src-tauri/src/commands/provider.rs:215-245 | a variable is reported exactly when it is a string |
| Provider.GetCurrentProviderConfig | src-tauri/src/commands/provider.rs:201-246 | each of the seven variables is reported exactly when `env` holds it as a string; the helper is the top-level string |
| Provider.NoEnvReadsNothing | src-tauri/src/commands/provider.rs:203-246 | a document without an `env` object reports no variable |
| Provider.ValidateThirdPartyConfig | src-tauri/src/commands/provider.rs:397-404 | an error exactly when the base URL is not the official one and both token and key are absent |
| Provider.IfNonEmpty | src-tauri/src/commands/provider.rs:309-339 | a value is written exactly when present and non-empty |
| Provider.WriteConnection | src-tauri/src/commands/provider.rs:282-339 | the seven managed variables are dropped, the base URL is always written, token, key and model only when non-empty, and every other variable is kept |
| Provider.RewriteEnv | src-tauri/src/commands/provider.rs:282-364 | no stale managed value survives; the timeout and traffic flags are set exactly off the official URL; the small fast model only when non-empty |
| Provider.HelperValue | src-tauri/src/commands/provider.rs:367-383 | the helper is set exactly when enabled with a non-empty token |
| Provider.SetApiKeyHelper | src-tauri/src/commands/provider.rs:367-383 | `apiKeyHelper` is written or removed as the helper value says; nothing else changes |
| Provider.RewriteSettings | src-tauri/src/commands/provider.rs:267-383 | a non-object `env` is the only error; otherwise `env` is rewritten, the helper set or dropped, every other key kept |
| Provider.SwitchProviderConfig | src-tauri/src/commands/provider.rs:250-394 | fails exactly on validation, load, a non-object document or a non-object `env`; otherwise the variables and helper are rewritten and every other key is kept |
| Provider.SwitchedIsCurrent | src-tauri/src/commands/provider.rs:201-246 | after a switch the current configuration reports the base URL, token, key and model the switch wrote |
| Provider.ClearProviderConfig | src-tauri/src/commands/provider.rs:436-462 | only the four cleared variables and `apiKeyHelper` go; every other key and variable remains; a non-object document is written back as it was |
| Provider.ClearedReadsNothing | src-tauri/src/commands/provider.rs:436-462 | after a clear no base URL, token, key, model or helper is reported, and the other variables read as before |
| Provider.LoadLegacyProviders | src-tauri/src/commands/provider.rs:95-114 | a missing or blank list is empty, and unparseable text is an error |
| Provider.AddProviderConfig | src-tauri/src/commands/provider.rs:127-145 | a duplicate id is refused; otherwise the provider is appended |
| Provider.UpdateProviderConfig | src-tauri/src/commands/provider.rs:148-166 | the first entry with the id is replaced in place; an absent id is an error |
| Provider.DeleteProviderConfig | src-tauri/src/commands/provider.rs:169-187 | the first entry with the id is removed and its name is reported; an absent id is an error |
| Provider.GetProviderConfig | src-tauri/src/commands/provider.rs:190-198 | the first listed entry with the id is returned; an absent id is an error |
| Provider.AddKeepsIdsUnique | src-tauri/src/commands/provider.rs:127-145 | adding keeps the provider ids unique |
| Provider.AddThenGetAndDelete | src-tauri/src/commands/provider.rs:127-198 | after an add, get finds the added provider and delete gives back the previous list |
| Provider.UpdateKeepsIds | src-tauri/src/commands/provider.rs:148-166 | updating keeps every id in place |

## Left out

- File-system reads and writes, the `rusqlite` cache of binary paths, `which`/`where`/`reg` lookups, `--version` probes and environment variables are inputs, not operations. The write of a default settings file by `load_settings` is not modelled.
- The tokio tasks, `Mutex` locking, the 100 ms sleeps, the `Drop` clean-up of the process state and the event transport are not modelled. The readers and the exit waiter are sequential steps, and any interleaving of them is a trace.
- The process registry's internals are not part of this model. The registry is a list of runs with `register`, `append_live_output`, `unregister` and lookup by session. The auto-compact manager calls appear only as events.
- `build_execution_args`, `normalize_base_url` and `normalize_path_for_comparison` are not part of this model; they are parameters.
- CodexUsage.ReadMeta: the session's `cwd` is kept as written, which is the non-Windows build. The Windows build's conversion of `/mnt/…` paths by `wsl_to_windows_path` is not part of this model.
- CodexConfig.IsAbsolute: paths follow Unix rules (absolute means a leading `/`). So CodexConfig.PathJoin, CodexConfig.ExpandUserPath and CodexConfig.ExpandedIsAbsolute hold for Unix builds only; Windows drive and UNC paths are not modelled.
- CliRunner.UsageTotal: the sum wraps modulo 2^64, as a release build does; a debug build panics on that overflow instead.
- Floating point money is left out: `get_codex_pricing`, `calculate_cost`, the cost sums and the sorts by cost. The `by_date` sort by date string is left out too. The statistics lists keep the order in which each group first appears.
- `collect_all_sessions` (directory walk) is left out; the parsed sessions are an input.
- HTTP clients are left out: `test_provider_connection`, `query_provider_usage` and `test_codex_provider_connection`.
- JSON and TOML parsing and serialisation, chrono parsing and formatting, and the regex of `extract_version_from_output` and `extract_base_url_from_config` are oracles or left out.
- The `model = "…"` regex of `extract_model_from_config` is modelled by a hand-written matcher (CodexConfig.ModelCapture). Only the lemmas above are proved about it.
- `get_fallback_paths`, `get_nvm_paths`, `get_codex_command_candidates`, the platform scan lists of `collect_runtime_candidates` and `resolve_windows_executable` are inputs or left out.
- Other commands of the same files are left out: `clear_codex_provider_config`, `get_codex_mode_config`, `check_codex_availability`, the Claude binary-override commands, the CLAUDE.md commands and the system-prompt commands.
- ClaudeBinary.CandidateCollector.PushCandidate: lower-casing is ASCII only, while Rust's `to_lowercase` covers all of Unicode.
- ProjectStore.ShouldUpdateIdSound: `is_uppercase` is modelled as ASCII `A`–`Z`.
- ClaudeConfig.ParseClaudeMode: `to_lowercase` is modelled as ASCII lowering.
- ClaudeBinary.CompareNodeVersions: `u32` parsing accepts an optional `+` and ASCII digits, as Rust's does. `is_numeric` in `compare_versions` is modelled as ASCII digits only.
- CodexUsage.ParseSessionForUsage: the `u64` token counters are unbounded; Rust panics (debug) or wraps (release) on overflow.
- CodexUsage.GetCodexUsageStats: the `u64` sums are unbounded too.
- ClaudeBinary.SelectBestWithPriority: the in-place `sort_by` is not modelled. Only its head is observable, so the model scans for the first best element, which a stable sort puts first.
- ProjectStore.DeduplicateProjects: `HashMap` iteration order is unspecified. The model visits paths in first-seen order, and the final sort hides that order except among projects with equal activity times.
- CliRunner.ClaudeRuntime.OnExit: the kill signal itself and the wait on the child are not modelled. How the wait ended is an input.
- ProjectStore.DeleteSessionsBatch: `delete` gives the result for a session file as it was before the batch, and a file the batch has removed reads as not found. A `delete_session` that removed the session file and then failed on the TODO file is reported as failed, and a later repeat of that id is not tracked.
- ProjectStore.HiddenProjects.Hide: failures to save the hidden list are not modelled.
- ProjectStore.HiddenProjects.Restore: failures to save the hidden list are not modelled.
- ProjectStore.HiddenProjects.RemoveFromHidden: failures to save the hidden list are not modelled.
- Provider.ClearProviderConfig: the success message text is a constant and is not stated.
- The permission presets and the message texts of `validate_permission_config` are not modelled; errors and warnings are tags.

## Findings

| source | as written | input that shows it | evidently intended | confidence | as-written member | corrected member |
|---|---|---|---|---|---|---|
| src-tauri/src/commands/claude/cli_runner.rs:923-980 | the exit waiter of a process takes whatever child is in the legacy slot, waits on it, reports under its own session id and clears the slot | spawn A, A announces session a, spawn B (which kills A and takes the slot), B announces session b, then A's waiter runs and then B's | each waiter reports on its own child: A's waiter finds the slot taken by B, leaves it, and completes session a as failed, since B's spawn killed A; B's waiter completes session b with B's exit status, so each session completes exactly once (RunnerExitFinding.OwnedExitCompletesEach) | not executed | RunnerExitFinding.ReplacedSessionNeverCompletes | CliRunner.ExitStepOwned |
