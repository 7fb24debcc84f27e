/** The session runner of the desktop app: how a prompt reaches the driver process,
    how each line the driver prints is classified and forwarded, the process registry
    and the single legacy slot, the three-tier cancellation and the resume-to-continue
    fallback.

    The tasks the runner starts (stdout reader, stderr reader, exit waiter) run
    concurrently in the source; here each is a step on one `Runtime` value and any
    interleaving of steps is a sequential trace. The process registry, which the
    source only calls, is modelled as a list of runs in registration order. */
module CliRunner {
  import opened Wrappers
  import opened Json
  import opened Text

  // ---------------------------------------------------------------------------
  // Prompt routing and command lines
  // ---------------------------------------------------------------------------

  /** A short single-line prompt that starts with '/' (after trimming) and is
      under 256 bytes is a slash command. */
  predicate IsSlashCommand(prompt: string) {
    var t := Trim(prompt);
    StartsWith(t, "/") && '\n' !in t && Utf8Len(t) < 256
  }

  /** What the child process is started with: its argument list and what is written
      to its stdin before stdin is closed (`None`: stdin is only closed). */
  datatype Launch = Launch(args: seq<string>, stdin: Option<string>)

  /** The prompt as the child receives it: from stdin, or as the argument after `-p`. */
  function DeliveredPrompt(l: Launch): Option<string> {
    if l.stdin.Some? then l.stdin
    else if |l.args| >= 2 && l.args[|l.args| - 2] == "-p" then Some(l.args[|l.args| - 1])
    else None
  }

  /** The argument/stdin decision at the start of the spawn: a slash command is passed
      as `-p <prompt>` after every other argument, anything else is piped to stdin. */
  function PlanLaunch(args: seq<string>, prompt: string): (l: Launch)
    ensures |l.args| >= |args| && l.args[..|args|] == args
    ensures l.stdin.None? <==> IsSlashCommand(prompt)
    ensures DeliveredPrompt(l) == Some(prompt)
    ensures l.stdin.Some? ==> l.args == args
  {
    if IsSlashCommand(prompt) then Launch(args + ["-p", prompt], None)
    else Launch(args, Some(prompt))
  }

  /** A slash command surrounded by white space is still one. */
  lemma SlashCommandExample()
    ensures IsSlashCommand(" /help\n")
  {
    assert TrimStart(" /help\n") == "/help\n";
    assert TrimEnd("/help\n") == "/help";
    assert Utf8Len("/help") == 5;
  }

  /** A multi-line prompt is piped even when it starts with '/'. */
  lemma MultiLineIsNotSlashCommand()
    ensures !IsSlashCommand("/review\nit")
  {
    assert TrimStart("/review\nit") == "/review\nit";
    assert TrimEnd("/review\nit") == "/review\nit";
    assert "/review\nit"[7] == '\n';
  }

  /** Frontend model ids to the driver's model aliases. */
  function MapModelToClaudeAlias(model: string): (alias: string)
    ensures model == "sonnet1m" ==> alias == "sonnet[1m]"
    ensures model != "sonnet1m" ==> alias == model
  {
    match model
    case "sonnet1m" => "sonnet[1m]"
    case "sonnet" => "sonnet"
    case "opus" => "opus"
    case _ => model
  }

  /** `Vec::insert`. */
  function Insert(xs: seq<string>, i: nat, x: string): (r: seq<string>)
    requires i <= |xs|
  {
    xs[..i] + [x] + xs[i..]
  }

  /** Continue: `-c` inserted in front of the built arguments. */
  function ContinueArgs(built: seq<string>): (args: seq<string>)
    ensures |args| == |built| + 1 && args[0] == "-c" && args[1..] == built
  {
    Insert(built, 0, "-c")
  }

  /** Resume: `--resume` then the session id inserted in front of the built arguments. */
  function ResumeArgs(sessionId: string, built: seq<string>): (args: seq<string>)
    ensures |args| == |built| + 2
    ensures args[0] == "--resume" && args[1] == sessionId && args[2..] == built
  {
    var first := Insert(built, 0, "--resume");
    Insert(first, 1, sessionId)
  }

  // ---------------------------------------------------------------------------
  // Line classification
  // ---------------------------------------------------------------------------

  /** One line of driver output: its text and, when it is JSON, the parsed value. */
  datatype Line = Line(raw: string, parsed: Option<Json>)

  /** The session id an init line announces: `type == "system"`, `subtype == "init"`
      and a string `session_id`. */
  function InitSessionId(msg: Json): (r: Option<string>)
    ensures r.Some? <==>
      Index(msg, "type") == JStr("system") && Index(msg, "subtype") == JStr("init")
      && Index(msg, "session_id").JStr?
    ensures r.Some? ==> Index(msg, "session_id") == JStr(r.value)
  {
    if Index(msg, "type") == JStr("system") && Index(msg, "subtype") == JStr("init")
    then AsStr(Index(msg, "session_id"))
    else None
  }

  function LineSessionId(line: Line): Option<string> {
    match line.parsed
    case Some(msg) => InitSessionId(msg)
    case None => None
  }

  /** The token total of a line with a `usage` member: `input_tokens + output_tokens`
      when both are unsigned 64-bit integers, added with 64-bit wrap-around. */
  function UsageTotal(msg: Json): (r: Option<nat>)
    ensures r.Some? <==> (Get(msg, "usage").Some?
      && GetU64(Get(msg, "usage").value, "input_tokens").Some?
      && GetU64(Get(msg, "usage").value, "output_tokens").Some?)
    ensures r.Some? ==> r.value < U64_LIMIT
    ensures r.Some? ==>
      var u := Get(msg, "usage").value;
      r.value == (GetU64(u, "input_tokens").value + GetU64(u, "output_tokens").value) % U64_LIMIT
  {
    match Get(msg, "usage")
    case None => None
    case Some(usage) =>
      match (GetU64(usage, "input_tokens"), GetU64(usage, "output_tokens"))
      case (Some(i), Some(o)) => Some((i + o) % U64_LIMIT)
      case _ => None
  }

  // ---------------------------------------------------------------------------
  // Registry, routers, events
  // ---------------------------------------------------------------------------

  /** One registered run: the session it belongs to, its process and its buffered output. */
  datatype RunInfo = RunInfo(
    runId: nat, sessionId: string, pid: nat,
    projectPath: string, prompt: string, model: string,
    liveOutput: seq<string>)

  /** The per-process holders of one spawn: what was launched, the session id once
      announced and the run id once registered. */
  datatype Router = Router(
    pid: nat, projectPath: string, prompt: string, model: string, autoCompact: bool,
    sessionId: Option<string>, runId: Option<nat>)

  /** A child process handle in the legacy slot. */
  datatype Child = Child(handle: nat, pid: nat)

  datatype Channel = Generic | Scoped(sessionId: string)

  /** What the runner emits to the frontend, in emission order, and its two calls into
      the auto-compact manager. */
  datatype Event =
    | OutputLine(ch: Channel, line: string)
    | ErrorLine(ch: Channel, line: string)
    | SessionStarted(sessionId: string, projectPath: string, model: string, pid: nat, runId: nat)
    | SessionStopped(sessionId: string, success: bool, waitFailed: bool)
    | Complete(ch: Channel, success: bool)
    | Cancelled(ch: Channel)
    | CompactRegistered(sessionId: string)
    | CompactTokens(sessionId: string, total: nat)

  datatype Runtime = Runtime(
    registry: seq<RunInfo>, nextRunId: nat,
    routers: map<nat, Router>, nextHandle: nat,
    slot: Option<Child>,
    killed: seq<nat>,
    replaced: set<nat>,
    launches: seq<Launch>,
    events: seq<Event>)

  const Initial := Runtime([], 0, map[], 0, None, [], {}, [], [])

  ghost predicate RunIdsBelow(reg: seq<RunInfo>, bound: nat) {
    forall i :: 0 <= i < |reg| ==> reg[i].runId < bound
  }

  ghost predicate RunIdsIncreasing(reg: seq<RunInfo>) {
    forall i, j :: 0 <= i < j < |reg| ==> reg[i].runId < reg[j].runId
  }

  /** Process handles are allocated from a counter. */
  ghost predicate HandlesBelow(s: Runtime) {
    forall h :: h in s.routers ==> h < s.nextHandle
  }

  /** What every reachable runtime satisfies. */
  ghost predicate Inv(s: Runtime) {
    && RunIdsBelow(s.registry, s.nextRunId)
    && RunIdsIncreasing(s.registry)
    && HandlesBelow(s)
    && (forall h :: h in s.routers && s.routers[h].runId.Some? ==> s.routers[h].runId.value < s.nextRunId)
    && (s.slot.Some? ==> s.slot.value.handle in s.routers)
  }

  /** `register_claude_session`: a fresh run id, appended in registration order. */
  function Register(reg: seq<RunInfo>, runId: nat, r: Router, sessionId: string): seq<RunInfo> {
    reg + [RunInfo(runId, sessionId, r.pid, r.projectPath, r.prompt, r.model, [])]
  }

  /** `append_live_output`: appends to the run with that id, ignores unknown ids. */
  function AppendLive(reg: seq<RunInfo>, runId: nat, line: string): (r: seq<RunInfo>)
    ensures |r| == |reg|
    ensures forall i :: 0 <= i < |reg| ==>
      r[i] == if reg[i].runId == runId then reg[i].(liveOutput := reg[i].liveOutput + [line]) else reg[i]
  {
    seq(|reg|, i requires 0 <= i < |reg| =>
      if reg[i].runId == runId then reg[i].(liveOutput := reg[i].liveOutput + [line]) else reg[i])
  }

  /** `unregister_process`: drops the run with that id. */
  function Unregister(reg: seq<RunInfo>, runId: nat): (r: seq<RunInfo>)
    ensures forall i :: 0 <= i < |r| ==> r[i].runId != runId && r[i] in reg
    ensures forall x :: x in reg && x.runId != runId ==> x in r
    ensures RunIdsIncreasing(reg) ==> RunIdsIncreasing(r)
  {
    if reg == [] then []
    else if reg[0].runId == runId then Unregister(reg[1..], runId)
    else [reg[0]] + Unregister(reg[1..], runId)
  }

  /** `get_claude_session_by_id`: the earliest registered run of that session. */
  function FindBySession(reg: seq<RunInfo>, sessionId: string): (r: Option<RunInfo>)
    ensures r.Some? ==> r.value in reg && r.value.sessionId == sessionId
    ensures r.None? ==> forall i :: 0 <= i < |reg| ==> reg[i].sessionId != sessionId
  {
    if reg == [] then None
    else if reg[0].sessionId == sessionId then Some(reg[0])
    else FindBySession(reg[1..], sessionId)
  }

  /** `get_claude_session_output`: the buffered lines of the session's run, or nothing
      when the session is unknown. */
  function SessionOutput(reg: seq<RunInfo>, sessionId: string): (out: seq<string>)
    ensures (exists i :: 0 <= i < |reg| && reg[i].sessionId == sessionId && reg[i].liveOutput == out)
      || (out == [] && forall i :: 0 <= i < |reg| ==> reg[i].sessionId != sessionId)
  {
    match FindBySession(reg, sessionId)
    case Some(run) => run.liveOutput
    case None => []
  }

  /** The emissions for one stdout line once the holders are updated: the session
      channel when the session is known, then the generic channel. */
  function OutputEvents(sessionId: Option<string>, raw: string): seq<Event> {
    (if sessionId.Some? then [OutputLine(Scoped(sessionId.value), raw)] else [])
      + [OutputLine(Generic, raw)]
  }

  /** The init branch of the stdout reader: the first init line sets the session id,
      registers with the auto-compact manager and the registry, and emits
      session-started; later init lines change nothing. */
  function CaptureSession(s: Runtime, h: nat, line: Line, registryAccepts: bool): (r: Runtime)
    requires h in s.routers
    ensures h in r.routers && r.launches == s.launches && r.slot == s.slot
    ensures (forall k :: k in r.routers <==> k in s.routers) && r.nextHandle == s.nextHandle && r.killed == s.killed
    ensures |r.events| >= |s.events| && r.events[..|s.events|] == s.events
    ensures NoGenericOutput(r.events[|s.events|..])
  {
    var rt := s.routers[h];
    var sid := LineSessionId(line);
    if sid.None? || rt.sessionId.Some? then s
    else
      var compact := if rt.autoCompact then [CompactRegistered(sid.value)] else [];
      if registryAccepts then
        var id := s.nextRunId;
        s.(registry := Register(s.registry, id, rt, sid.value),
           nextRunId := id + 1,
           routers := s.routers[h := rt.(sessionId := sid, runId := Some(id))],
           events := s.events + compact
                     + [SessionStarted(sid.value, rt.projectPath, rt.model, rt.pid, id)])
      else
        s.(routers := s.routers[h := rt.(sessionId := sid)],
           events := s.events + compact)
  }

  /** The usage branch: the total goes to the auto-compact manager only once a session
      id is known. */
  function ReportUsage(s: Runtime, h: nat, line: Line): (r: Runtime)
    requires h in s.routers
    ensures r == s.(events := r.events)
    ensures |r.events| >= |s.events| && r.events[..|s.events|] == s.events
    ensures NoGenericOutput(r.events[|s.events|..])
    ensures r.events != s.events ==>
      s.routers[h].sessionId.Some? && line.parsed.Some? && UsageTotal(line.parsed.value).Some?
      && r.events == s.events + [CompactTokens(s.routers[h].sessionId.value, UsageTotal(line.parsed.value).value)]
  {
    var rt := s.routers[h];
    if line.parsed.Some? && UsageTotal(line.parsed.value).Some? && rt.sessionId.Some? && rt.autoCompact
    then s.(events := s.events + [CompactTokens(rt.sessionId.value, UsageTotal(line.parsed.value).value)])
    else s
  }

  /** One iteration of the stdout reader of process `h`. */
  function StdoutStep(s: Runtime, h: nat, line: Line, registryAccepts: bool): (r: Runtime)
    requires h in s.routers
    ensures h in r.routers && (forall k :: k in r.routers <==> k in s.routers)
    ensures r.slot == s.slot && r.nextHandle == s.nextHandle && r.killed == s.killed && r.launches == s.launches
  {
    ForwardLine(ReportUsage(CaptureSession(s, h, line, registryAccepts), h, line), h, line.raw)
  }

  /** The tail of every stdout iteration: buffer the line when a run is registered,
      emit it on the session channel when the session is known, and on the generic one. */
  function ForwardLine(s: Runtime, h: nat, raw: string): (r: Runtime)
    requires h in s.routers
    ensures r == s.(registry := r.registry, events := r.events)
    ensures r.events == s.events + OutputEvents(s.routers[h].sessionId, raw)
    ensures |r.registry| == |s.registry|
    ensures forall i :: 0 <= i < |s.registry| ==> r.registry[i].runId == s.registry[i].runId
    ensures s.routers[h].runId.None? ==> r.registry == s.registry
  {
    var rt := s.routers[h];
    var reg := if rt.runId.Some? then AppendLive(s.registry, rt.runId.value, raw) else s.registry;
    s.(registry := reg, events := s.events + OutputEvents(rt.sessionId, raw))
  }

  /** The stdout reader of `h` changes only `h`'s holders: the session id is set by the
      first init line, and once known the holders stay as they are. */
  lemma StdoutStepRouters(s: Runtime, h: nat, line: Line, acc: bool)
    requires h in s.routers
    ensures var r := StdoutStep(s, h, line, acc);
      && (forall k :: k in s.routers && k != h ==> r.routers[k] == s.routers[k])
      && (s.routers[h].sessionId.Some? ==> r.routers[h] == s.routers[h])
      && (s.routers[h].sessionId.None? ==> r.routers[h].sessionId == LineSessionId(line))
  {
  }

  /** One iteration of the stderr reader: emitted, never buffered. */
  function StderrStep(s: Runtime, h: nat, raw: string): (r: Runtime)
    requires h in s.routers
    ensures r == s.(events := r.events)
    ensures |r.events| > |s.events| && r.events[..|s.events|] == s.events
    ensures r.events[|r.events| - 1] == ErrorLine(Generic, raw)
  {
    var sid := s.routers[h].sessionId;
    s.(events := s.events + (if sid.Some? then [ErrorLine(Scoped(sid.value), raw)] else [])
                          + [ErrorLine(Generic, raw)])
  }

  // ---------------------------------------------------------------------------
  // Spawn, exit, cancel, continue, resume
  // ---------------------------------------------------------------------------

  /** What the operating system answers to a spawn: whether it succeeded, the pid of the
      new child, and whether the auto-compact manager is available to its tasks. */
  datatype SpawnOracle = SpawnOracle(ok: bool, pid: nat, autoCompact: bool)

  /** `spawn_claude_process`: routes the prompt, launches the child, kills the previous
      occupant of the legacy slot and puts the new child there. The result is the
      handle of the new process. */
  function SpawnStep(s: Runtime, args: seq<string>, prompt: string, model: string,
                     projectPath: string, o: SpawnOracle): (r: (Runtime, Result<nat>))
    ensures r.0.launches == s.launches + [PlanLaunch(args, prompt)]
    ensures r.1.Ok? <==> o.ok
    ensures !o.ok ==> r.0 == s.(launches := r.0.launches)
    ensures o.ok ==>
      && r.1.value == s.nextHandle
      && r.0.nextHandle == s.nextHandle + 1
      && r.0.slot == Some(Child(r.1.value, o.pid))
      && r.0.killed == s.killed + (if s.slot.Some? then [s.slot.value.handle] else [])
      && r.0.replaced == s.replaced + (if s.slot.Some? then {s.slot.value.handle} else {})
      && r.0.routers == s.routers[r.1.value := Router(o.pid, projectPath, prompt, model, o.autoCompact, None, None)]
      && r.0.registry == s.registry && r.0.events == s.events
  {
    var launches := s.launches + [PlanLaunch(args, prompt)];
    if !o.ok then (s.(launches := launches), Err("Failed to spawn Claude"))
    else
      var h := s.nextHandle;
      var killed := s.killed + (if s.slot.Some? then [s.slot.value.handle] else []);
      var replaced := s.replaced + (if s.slot.Some? then {s.slot.value.handle} else {});
      var rt := Router(o.pid, projectPath, prompt, model, o.autoCompact, None, None);
      (s.(launches := launches, killed := killed, replaced := replaced, slot := Some(Child(h, o.pid)),
          routers := s.routers[h := rt], nextHandle := h + 1),
       Ok(h))
  }

  /** How waiting on a child ended. */
  datatype WaitOutcome = Exited(success: bool) | WaitFailed

  /** What an exit waiter emits once it has waited on a child: session-state stopped and
      the session's completion when the session is known, then the generic completion. */
  function CompletionEvents(sessionId: Option<string>, w: WaitOutcome): seq<Event> {
    var ok := w.Exited? && w.success;
    (if sessionId.Some? then [SessionStopped(sessionId.value, ok, w.WaitFailed?), Complete(Scoped(sessionId.value), ok)] else [])
      + [Complete(Generic, ok)]
  }

  /** The exit waiter of process `h`, as written: it takes whatever child occupies the
      legacy slot, waits on it and reports with `h`'s own session id; an empty slot
      reports nothing. It then unregisters `h`'s run and clears the slot. */
  function ExitStep(s: Runtime, h: nat, w: WaitOutcome): (r: Runtime)
    requires h in s.routers
    ensures r.slot == None
    ensures s.slot.None? ==> r.events == s.events
    ensures s.slot.Some? ==> r.events == s.events + CompletionEvents(s.routers[h].sessionId, w)
    ensures s.routers[h].runId.Some? ==> forall i :: 0 <= i < |r.registry| ==> r.registry[i].runId != s.routers[h].runId.value
    ensures forall x :: x in r.registry ==> x in s.registry
    ensures forall x :: x in s.registry && Some(x.runId) != s.routers[h].runId ==> x in r.registry
  {
    var rt := s.routers[h];
    var evs := if s.slot.Some? then CompletionEvents(rt.sessionId, w) else [];
    var reg := if rt.runId.Some? then Unregister(s.registry, rt.runId.value) else s.registry;
    s.(slot := None, events := s.events + evs, registry := reg)
  }

  /** The exit waiter as evidently intended: it reports on its own child, so it takes the
      slot only while the slot still holds its own child. A child that a newer spawn
      killed and replaced is reported as a failed completion of its own session, and
      the newer child stays in place; a child a cancel took away has been reported by
      the cancel and gets nothing more. */
  function ExitStepOwned(s: Runtime, h: nat, w: WaitOutcome): (r: Runtime)
    requires h in s.routers
    ensures s.slot.Some? && s.slot.value.handle == h ==>
      r.slot == None && r.events == s.events + CompletionEvents(s.routers[h].sessionId, w)
    ensures !(s.slot.Some? && s.slot.value.handle == h) ==> r.slot == s.slot
    ensures !(s.slot.Some? && s.slot.value.handle == h) && h in s.replaced ==>
      r.events == s.events + CompletionEvents(s.routers[h].sessionId, Exited(false))
    ensures !(s.slot.Some? && s.slot.value.handle == h) && h !in s.replaced ==> r.events == s.events
    ensures s.routers[h].runId.Some? ==> forall i :: 0 <= i < |r.registry| ==> r.registry[i].runId != s.routers[h].runId.value
    ensures forall x :: x in r.registry ==> x in s.registry
    ensures forall x :: x in s.registry && Some(x.runId) != s.routers[h].runId ==> x in r.registry
  {
    var rt := s.routers[h];
    var own := s.slot.Some? && s.slot.value.handle == h;
    var evs :=
      if own then CompletionEvents(rt.sessionId, w)
      else if h in s.replaced then CompletionEvents(rt.sessionId, Exited(false))
      else [];
    var reg := if rt.runId.Some? then Unregister(s.registry, rt.runId.value) else s.registry;
    s.(slot := if own then None else s.slot, events := s.events + evs, registry := reg)
  }

  /** `kill_process` of the registry: it answered with a flag, or failed. */
  datatype RegistryKill = KillReturned(success: bool) | KillFailed

  /** The outcomes of the three kill attempts, each consulted only if its tier runs. */
  datatype CancelOracle = CancelOracle(registryKill: RegistryKill, legacyKillOk: bool, treeKillOk: bool)

  datatype CancelReport = CancelReport(killed: bool, attempted: seq<string>, slotTaken: bool, treeKill: bool)

  /** The kill cascade of `cancel_claude_execution`: the registry tier when the session is
      registered, the legacy slot when that did not kill, and the OS process-tree kill only
      when the legacy kill failed and a pid is known. */
  function CancelCascade(registered: bool, slotOccupied: bool, pid: Option<nat>, o: CancelOracle): (rep: CancelReport)
    ensures ("registry" in rep.attempted) <==> registered
    ensures rep.slotTaken <==> slotOccupied && !(registered && o.registryKill == KillReturned(true))
    ensures ("claude_state" in rep.attempted) <==> rep.slotTaken
    ensures rep.treeKill <==> rep.slotTaken && !o.legacyKillOk && pid.Some?
    ensures rep.killed <==>
      (registered && o.registryKill == KillReturned(true))
      || (rep.slotTaken && o.legacyKillOk)
      || (rep.treeKill && o.treeKillOk)
    ensures |rep.attempted| <= 2 && (registered ==> rep.attempted[0] == "registry")
  {
    var regKilled := registered && o.registryKill == KillReturned(true);
    var legacy := !regKilled && slotOccupied;
    var tree := legacy && !o.legacyKillOk && pid.Some?;
    var killed := regKilled || (legacy && o.legacyKillOk) || (tree && o.treeKillOk);
    CancelReport(killed,
                 (if registered then ["registry"] else []) + (if legacy then ["claude_state"] else []),
                 legacy, tree)
  }

  /** What every cancel emits, whatever was killed. */
  function CancelEvents(sessionId: Option<string>): seq<Event> {
    (if sessionId.Some? then [Cancelled(Scoped(sessionId.value)), Complete(Scoped(sessionId.value), false)] else [])
      + [Cancelled(Generic), Complete(Generic, false)]
  }

  /** `cancel_claude_execution`: runs the cascade, takes the legacy child when that tier
      runs, and always emits the cancelled/complete pair; it never fails. */
  function CancelStep(s: Runtime, sessionId: Option<string>, o: CancelOracle): (r: (Runtime, CancelReport))
    ensures r.0.events == s.events + CancelEvents(sessionId)
    ensures r.0.registry == s.registry && r.0.routers == s.routers && r.0.launches == s.launches
    ensures r.1.slotTaken ==> s.slot.Some? && r.0.slot == None && r.0.killed == s.killed + [s.slot.value.handle]
    ensures !r.1.slotTaken ==> r.0.slot == s.slot && r.0.killed == s.killed
    ensures r.1 == CancelCascade(sessionId.Some? && FindBySession(s.registry, sessionId.value).Some?,
                                 s.slot.Some?, if s.slot.Some? then Some(s.slot.value.pid) else None, o)
  {
    var registered := sessionId.Some? && FindBySession(s.registry, sessionId.value).Some?;
    var rep := CancelCascade(registered, s.slot.Some?, if s.slot.Some? then Some(s.slot.value.pid) else None, o);
    var s1 := if rep.slotTaken then s.(slot := None, killed := s.killed + [s.slot.value.handle]) else s;
    (s1.(events := s.events + CancelEvents(sessionId)), rep)
  }

  /** `continue_claude_code`: `ready` says whether the driver binary was found and the
      command created; only then is the `-c` launch attempted. */
  function ContinueStep(s: Runtime, built: seq<string>, prompt: string, model: string, projectPath: string,
                        ready: bool, o: SpawnOracle): (r: (Runtime, Result<nat>))
    ensures !ready ==> r.0 == s && r.1.Err?
    ensures ready ==> r == SpawnStep(s, ContinueArgs(built), prompt, model, projectPath, o)
  {
    if !ready then (s, Err("Claude binary or command unavailable"))
    else SpawnStep(s, ContinueArgs(built), prompt, model, projectPath, o)
  }

  /** `resume_claude_code`: a `--resume <id>` launch; only a failed spawn (not a failure to
      prepare the command) falls back to one continue with the same inputs. */
  function ResumeStep(s: Runtime, sessionId: string, built: seq<string>, prompt: string, model: string,
                      projectPath: string, resumeReady: bool, resumeSpawn: SpawnOracle,
                      continueReady: bool, continueSpawn: SpawnOracle): (r: (Runtime, Result<nat>))
  {
    if !resumeReady then (s, Err("Claude binary or command unavailable"))
    else
      var (s1, res) := SpawnStep(s, ResumeArgs(sessionId, built), prompt, model, projectPath, resumeSpawn);
      if res.Ok? then (s1, res)
      else ContinueStep(s1, built, prompt, model, projectPath, continueReady, continueSpawn)
  }

  /** The resume fallback: at most two launches, the first a resume of the session, the
      second (only after a failed resume spawn) a continue carrying the same prompt. */
  lemma ResumeFallback(s: Runtime, sessionId: string, built: seq<string>, prompt: string, model: string,
                       projectPath: string, resumeReady: bool, resumeSpawn: SpawnOracle,
                       continueReady: bool, continueSpawn: SpawnOracle)
    ensures var r := ResumeStep(s, sessionId, built, prompt, model, projectPath,
                                resumeReady, resumeSpawn, continueReady, continueSpawn);
      && r.0.launches[..|s.launches|] == s.launches
      && |r.0.launches| == |s.launches|
           + (if resumeReady then 1 else 0)
           + (if resumeReady && !resumeSpawn.ok && continueReady then 1 else 0)
      && (resumeReady ==>
            var first := r.0.launches[|s.launches|];
            first.args[..2] == ["--resume", sessionId] && DeliveredPrompt(first) == Some(prompt))
      && (resumeReady && !resumeSpawn.ok && continueReady ==>
            var second := r.0.launches[|s.launches| + 1];
            second.args[0] == "-c" && second.args[1..|built| + 1] == built
            && DeliveredPrompt(second) == Some(prompt))
      && (r.1.Ok? <==> resumeReady && (resumeSpawn.ok || (continueReady && continueSpawn.ok)))
  {
    if resumeReady {
      var args := ResumeArgs(sessionId, built);
      var (s1, res) := SpawnStep(s, args, prompt, model, projectPath, resumeSpawn);
      var first := PlanLaunch(args, prompt);
      assert first.args[..2] == args[..2];
      if !res.Ok? && continueReady {
        var cargs := ContinueArgs(built);
        var second := PlanLaunch(cargs, prompt);
        assert second.args[..|cargs|] == cargs;
        assert second.args[1..|built| + 1] == cargs[1..];
      }
    }
  }

  // ---------------------------------------------------------------------------
  // Properties of the stdout reader over a whole stream
  // ---------------------------------------------------------------------------

  /** The stdout reader of process `h` over a stream of lines. */
  function RouteStdout(s: Runtime, h: nat, lines: seq<Line>, registryAccepts: bool): (r: Runtime)
    requires h in s.routers
    ensures h in r.routers
    decreases |lines|
  {
    if lines == [] then s
    else RouteStdout(StdoutStep(s, h, lines[0], registryAccepts), h, lines[1..], registryAccepts)
  }

  /** The session id of the first init line of a stream. */
  function FirstInit(lines: seq<Line>): Option<string> {
    if lines == [] then None
    else if LineSessionId(lines[0]).Some? then LineSessionId(lines[0])
    else FirstInit(lines[1..])
  }

  function Raws(lines: seq<Line>): seq<string> {
    seq(|lines|, i requires 0 <= i < |lines| => lines[i].raw)
  }

  lemma RawsCons(lines: seq<Line>)
    requires lines != []
    ensures Raws(lines) == [lines[0].raw] + Raws(lines[1..])
  {
  }

  /** The payloads of the generic `claude-output` emissions, in order. */
  function GenericOutputs(evs: seq<Event>): seq<string> {
    if evs == [] then []
    else GenericOutputs(evs[..|evs| - 1])
         + (if evs[|evs| - 1].OutputLine? && evs[|evs| - 1].ch == Generic then [evs[|evs| - 1].line] else [])
  }

  lemma {:induction false} GenericOutputsAppend(a: seq<Event>, b: seq<Event>)
    ensures GenericOutputs(a + b) == GenericOutputs(a) + GenericOutputs(b)
    decreases |b|
  {
    if b == [] {
      assert a + b == a;
    } else {
      var b' := b[..|b| - 1];
      assert (a + b)[..|a + b| - 1] == a + b';
      GenericOutputsAppend(a, b');
    }
  }

  /** Events that are not generic output lines. */
  ghost predicate NoGenericOutput(evs: seq<Event>) {
    forall i :: 0 <= i < |evs| ==> !(evs[i].OutputLine? && evs[i].ch == Generic)
  }

  lemma {:induction false} NoGenericOutputEmpty(evs: seq<Event>)
    requires NoGenericOutput(evs)
    ensures GenericOutputs(evs) == []
    decreases |evs|
  {
    if evs != [] {
      NoGenericOutputEmpty(evs[..|evs| - 1]);
    }
  }

  lemma GenericOutputsSkip(pre: seq<Event>, mid: seq<Event>, out: seq<Event>)
    requires NoGenericOutput(mid)
    ensures GenericOutputs(pre + mid + out) == GenericOutputs(pre) + GenericOutputs(out)
  {
    NoGenericOutputEmpty(mid);
    GenericOutputsAppend(pre, mid);
    GenericOutputsAppend(pre + mid, out);
  }

  lemma OutputEventsGeneric(sessionId: Option<string>, raw: string)
    ensures GenericOutputs(OutputEvents(sessionId, raw)) == [raw]
  {
    var out := OutputEvents(sessionId, raw);
    if sessionId.Some? {
      assert out[..1] == [OutputLine(Scoped(sessionId.value), raw)];
      assert out[..1][..0] == [];
      assert GenericOutputs(out[..1]) == [];
    } else {
      assert out[..0] == [];
    }
  }

  lemma StepGenericOutput(s: Runtime, h: nat, line: Line, acc: bool)
    requires h in s.routers
    ensures GenericOutputs(StdoutStep(s, h, line, acc).events) == GenericOutputs(s.events) + [line.raw]
  {
    var s2 := ReportUsage(CaptureSession(s, h, line, acc), h, line);
    var added := s2.events[|s.events|..];
    var out := OutputEvents(s2.routers[h].sessionId, line.raw);
    assert StdoutStep(s, h, line, acc).events == s.events + added + out;
    GenericOutputsSkip(s.events, added, out);
    OutputEventsGeneric(s2.routers[h].sessionId, line.raw);
  }

  /** Every stdout line reaches the generic channel, once and in order. */
  lemma {:induction false} EveryLineForwarded(s: Runtime, h: nat, lines: seq<Line>, acc: bool)
    requires h in s.routers
    ensures GenericOutputs(RouteStdout(s, h, lines, acc).events) == GenericOutputs(s.events) + Raws(lines)
    decreases |lines|
  {
    if lines != [] {
      var s1 := StdoutStep(s, h, lines[0], acc);
      assert RouteStdout(s, h, lines, acc) == RouteStdout(s1, h, lines[1..], acc);
      StepGenericOutput(s, h, lines[0], acc);
      EveryLineForwarded(s1, h, lines[1..], acc);
      RawsCons(lines);
    }
  }

  /** The first init line fixes the session id of a process; later ones are ignored. */
  lemma {:induction false} FirstInitWins(s: Runtime, h: nat, lines: seq<Line>, acc: bool)
    requires h in s.routers
    ensures RouteStdout(s, h, lines, acc).routers[h].sessionId ==
      if s.routers[h].sessionId.Some? then s.routers[h].sessionId else FirstInit(lines)
    decreases |lines|
  {
    if lines != [] {
      var s1 := StdoutStep(s, h, lines[0], acc);
      FirstInitWins(s1, h, lines[1..], acc);
    }
  }

  /** A process registers at most once: the registry grows by at most one run, and not
      at all once the session is known. */
  lemma {:induction false} RegisteredAtMostOnce(s: Runtime, h: nat, lines: seq<Line>, acc: bool)
    requires h in s.routers
    ensures var r := RouteStdout(s, h, lines, acc);
      |r.registry| <= |s.registry| + (if s.routers[h].sessionId.None? then 1 else 0)
    decreases |lines|
  {
    if lines != [] {
      var s1 := StdoutStep(s, h, lines[0], acc);
      RegisteredAtMostOnce(s1, h, lines[1..], acc);
      assert |s1.registry| <= |s.registry| + (if s.routers[h].sessionId.None? then 1 else 0);
      assert s1.routers[h].sessionId.None? ==> |s1.registry| == |s.registry|;
    }
  }

  /** Once a process is registered, every later stdout line is appended to its run's
      live output in order, and every other run's entry is left as it was. */
  lemma {:induction false} LiveOutputFollowsStream(s: Runtime, h: nat, lines: seq<Line>, acc: bool, i: nat)
    requires h in s.routers && s.routers[h].sessionId.Some? && s.routers[h].runId.Some?
    requires i < |s.registry|
    ensures var r := RouteStdout(s, h, lines, acc);
      && |r.registry| == |s.registry|
      && r.routers[h] == s.routers[h]
      && r.registry[i] ==
           if s.registry[i].runId == s.routers[h].runId.value
           then s.registry[i].(liveOutput := s.registry[i].liveOutput + Raws(lines))
           else s.registry[i]
    decreases |lines|
  {
    if lines != [] {
      var s1 := StdoutStep(s, h, lines[0], acc);
      assert s1.routers[h] == s.routers[h];
      LiveOutputFollowsStream(s1, h, lines[1..], acc, i);
      RawsCons(lines);
    }
  }

  /** Before a session is known nothing is buffered and no session channel is used;
      the init line registers a fresh run whose buffer starts with that very line. */
  lemma RegistrationAtInit(s: Runtime, h: nat, line: Line)
    requires Inv(s) && h in s.routers
    requires s.routers[h].sessionId.None? && s.routers[h].runId.None?
    ensures var r := StdoutStep(s, h, line, true);
      && (LineSessionId(line).None? ==> r.registry == s.registry && r.events[|s.events|..] == [OutputLine(Generic, line.raw)])
      && (LineSessionId(line).Some? ==>
            && r.registry[..|s.registry|] == s.registry
            && |r.registry| == |s.registry| + 1
            && r.registry[|s.registry|].sessionId == LineSessionId(line).value
            && r.registry[|s.registry|].liveOutput == [line.raw]
            && r.routers[h].runId == Some(s.nextRunId))
  {
    var r := StdoutStep(s, h, line, true);
    if LineSessionId(line).Some? {
      var s1 := CaptureSession(s, h, line, true);
      assert s1.registry[|s.registry|].runId == s.nextRunId;
      assert r.registry[..|s.registry|] == s1.registry[..|s.registry|];
    } else {
      assert r.events == s.events + [OutputLine(Generic, line.raw)];
    }
  }

  // ---------------------------------------------------------------------------
  // The runtime invariant
  // ---------------------------------------------------------------------------

  lemma InitialInv()
    ensures Inv(Initial)
  {
  }

  lemma SpawnKeepsInv(s: Runtime, args: seq<string>, prompt: string, model: string, projectPath: string, o: SpawnOracle)
    requires Inv(s)
    ensures Inv(SpawnStep(s, args, prompt, model, projectPath, o).0)
  {
  }

  lemma StdoutKeepsInv(s: Runtime, h: nat, line: Line, acc: bool)
    requires Inv(s) && h in s.routers
    ensures Inv(StdoutStep(s, h, line, acc))
  {
    var s1 := CaptureSession(s, h, line, acc);
    CaptureKeepsInv(s, h, line, acc);
    var s2 := ReportUsage(s1, h, line);
    var r := ForwardLine(s2, h, line.raw);
    assert RunIdsIncreasing(r.registry) by {
      forall i, j | 0 <= i < j < |r.registry| ensures r.registry[i].runId < r.registry[j].runId {
        assert r.registry[i].runId == s2.registry[i].runId;
      }
    }
  }

  lemma CaptureKeepsInv(s: Runtime, h: nat, line: Line, acc: bool)
    requires Inv(s) && h in s.routers
    ensures Inv(CaptureSession(s, h, line, acc))
  {
    var s1 := CaptureSession(s, h, line, acc);
    if s1.nextRunId != s.nextRunId {
      assert |s1.registry| == |s.registry| + 1 && s1.registry[..|s.registry|] == s.registry;
      assert s1.registry[|s.registry|].runId == s.nextRunId;
    }
  }

  lemma ExitKeepsInv(s: Runtime, h: nat, w: WaitOutcome)
    requires Inv(s) && h in s.routers
    ensures Inv(ExitStep(s, h, w))
  {
    var r := ExitStep(s, h, w);
    forall i | 0 <= i < |r.registry|
      ensures r.registry[i].runId < r.nextRunId
    {
      assert r.registry[i] in s.registry;
    }
  }

  lemma ExitOwnedKeepsInv(s: Runtime, h: nat, w: WaitOutcome)
    requires Inv(s) && h in s.routers
    ensures Inv(ExitStepOwned(s, h, w))
  {
    var r := ExitStepOwned(s, h, w);
    forall i | 0 <= i < |r.registry|
      ensures r.registry[i].runId < r.nextRunId
    {
      assert r.registry[i] in s.registry;
    }
  }

  lemma CancelKeepsInv(s: Runtime, sessionId: Option<string>, o: CancelOracle)
    requires Inv(s)
    ensures Inv(CancelStep(s, sessionId, o).0)
  {
  }

  /** The kill cascade as the command runs it, tier by tier. */
  method RunKillCascade(registered: bool, slotOccupied: bool, pid: Option<nat>, o: CancelOracle)
    returns (report: CancelReport)
    ensures report == CancelCascade(registered, slotOccupied, pid, o)
  {
    var killed := false;
    var attempted: seq<string> := [];
    var slotTaken := false;
    var treeKill := false;
    if registered {
      if o.registryKill == KillReturned(true) {
        killed := true;
      }
      attempted := attempted + ["registry"];
    }
    if !killed && slotOccupied {
      slotTaken := true;
      if o.legacyKillOk {
        killed := true;
      } else if pid.Some? {
        treeKill := true;
        if o.treeKillOk {
          killed := true;
        }
      }
      attempted := attempted + ["claude_state"];
    }
    report := CancelReport(killed, attempted, slotTaken, treeKill);
  }

  // ---------------------------------------------------------------------------
  // The runner state as the app holds it
  // ---------------------------------------------------------------------------

  /** The app-wide runner state: the process registry, the legacy slot, the holders of
      every spawned process, and what has been launched and emitted so far. Each method
      is one command or one iteration of a reader or waiter task. */
  class ClaudeRuntime {
    var registry: seq<RunInfo>
    var nextRunId: nat
    var routers: map<nat, Router>
    var nextHandle: nat
    var slot: Option<Child>
    var killed: seq<nat>
    var replaced: set<nat>
    var launches: seq<Launch>
    var events: seq<Event>

    function State(): Runtime
      reads this
    {
      Runtime(registry, nextRunId, routers, nextHandle, slot, killed, replaced, launches, events)
    }

    ghost predicate Valid()
      reads this
    {
      Inv(State())
    }

    constructor ()
      ensures State() == Initial && Valid()
    {
      registry := [];
      nextRunId := 0;
      routers := map[];
      nextHandle := 0;
      slot := None;
      killed := [];
      replaced := {};
      launches := [];
      events := [];
    }

    /** `spawn_claude_process`. */
    method Spawn(args: seq<string>, prompt: string, model: string, projectPath: string, o: SpawnOracle)
      returns (res: Result<nat>)
      requires Valid()
      modifies this
      ensures (State(), res) == SpawnStep(old(State()), args, prompt, model, projectPath, o)
      ensures Valid()
    {
      SpawnKeepsInv(State(), args, prompt, model, projectPath, o);
      var plan := PlanLaunch(args, prompt);
      launches := launches + [plan];
      if !o.ok {
        return Err("Failed to spawn Claude");
      }
      var h := nextHandle;
      nextHandle := h + 1;
      if slot.Some? {
        killed := killed + [slot.value.handle];
        replaced := replaced + {slot.value.handle};
      }
      slot := Some(Child(h, o.pid));
      routers := routers[h := Router(o.pid, projectPath, prompt, model, o.autoCompact, None, None)];
      res := Ok(h);
      ghost var expected := SpawnStep(old(State()), args, prompt, model, projectPath, o);
      assert expected.1 == res;
      assert expected.0.killed == killed && expected.0.replaced == replaced;
      assert expected.0.routers == routers;
      assert expected.0 == State();
    }

    /** One iteration of the stdout reader of process `h`. */
    method OnStdoutLine(h: nat, line: Line, registryAccepts: bool)
      requires Valid() && h in routers
      modifies this
      ensures State() == StdoutStep(old(State()), h, line, registryAccepts)
      ensures Valid()
    {
      StdoutKeepsInv(State(), h, line, registryAccepts);
      CaptureInit(h, line, registryAccepts);
      ReportTokens(h, line);
      Forward(h, line.raw);
    }

    /** The init branch of the stdout reader. */
    method CaptureInit(h: nat, line: Line, registryAccepts: bool)
      requires h in routers
      modifies this
      ensures State() == CaptureSession(old(State()), h, line, registryAccepts)
    {
      var rt := routers[h];
      var sid := LineSessionId(line);
      if sid.Some? && rt.sessionId.None? {
        rt := rt.(sessionId := sid);
        if rt.autoCompact {
          events := events + [CompactRegistered(sid.value)];
        }
        if registryAccepts {
          var id := nextRunId;
          registry := Register(registry, id, rt, sid.value);
          nextRunId := id + 1;
          rt := rt.(runId := Some(id));
          events := events + [SessionStarted(sid.value, rt.projectPath, rt.model, rt.pid, id)];
        }
        routers := routers[h := rt];
      }
    }

    /** The usage branch of the stdout reader. */
    method ReportTokens(h: nat, line: Line)
      requires h in routers
      modifies this
      ensures State() == ReportUsage(old(State()), h, line)
    {
      var rt := routers[h];
      if line.parsed.Some? {
        var total := UsageTotal(line.parsed.value);
        if total.Some? && rt.sessionId.Some? && rt.autoCompact {
          events := events + [CompactTokens(rt.sessionId.value, total.value)];
        }
      }
    }

    /** The buffering and emission at the end of every stdout iteration. */
    method Forward(h: nat, raw: string)
      requires h in routers
      modifies this
      ensures State() == ForwardLine(old(State()), h, raw)
    {
      var rt := routers[h];
      if rt.runId.Some? {
        registry := AppendLive(registry, rt.runId.value, raw);
      }
      if rt.sessionId.Some? {
        events := events + [OutputLine(Scoped(rt.sessionId.value), raw)];
      }
      events := events + [OutputLine(Generic, raw)];
    }

    /** One iteration of the stderr reader of process `h`. */
    method OnStderrLine(h: nat, raw: string)
      requires Valid() && h in routers
      modifies this
      ensures State() == StderrStep(old(State()), h, raw)
      ensures Valid()
    {
      var sid := routers[h].sessionId;
      if sid.Some? {
        events := events + [ErrorLine(Scoped(sid.value), raw)];
      }
      events := events + [ErrorLine(Generic, raw)];
    }

    /** The exit waiter of process `h`, as written. */
    method OnExit(h: nat, w: WaitOutcome)
      requires Valid() && h in routers
      modifies this
      ensures State() == ExitStep(old(State()), h, w)
      ensures Valid()
    {
      ExitKeepsInv(State(), h, w);
      var rt := routers[h];
      var current := slot;
      slot := None;
      if current.Some? {
        Report(rt.sessionId, w);
      }
      if rt.runId.Some? {
        registry := Unregister(registry, rt.runId.value);
      }
    }

    /** The exit waiter of process `h` as evidently intended: it completes only its own
        child, reports a replaced child as failed, and leaves a newer occupant of the
        slot in place. */
    method OnExitOwned(h: nat, w: WaitOutcome)
      requires Valid() && h in routers
      modifies this
      ensures State() == ExitStepOwned(old(State()), h, w)
      ensures Valid()
    {
      ExitOwnedKeepsInv(State(), h, w);
      var rt := routers[h];
      if slot.Some? && slot.value.handle == h {
        slot := None;
        Report(rt.sessionId, w);
      } else if h in replaced {
        Report(rt.sessionId, Exited(false));
      }
      if rt.runId.Some? {
        registry := Unregister(registry, rt.runId.value);
      }
    }

    /** The terminal notifications of a waiter that has its child's outcome. */
    method Report(sessionId: Option<string>, w: WaitOutcome)
      modifies this
      ensures State() == old(State()).(events := old(events) + CompletionEvents(sessionId, w))
    {
      var ok := w.Exited? && w.success;
      if sessionId.Some? {
        events := events + [SessionStopped(sessionId.value, ok, w.WaitFailed?),
                            Complete(Scoped(sessionId.value), ok)];
      }
      events := events + [Complete(Generic, ok)];
    }

    /** `cancel_claude_execution`. */
    method Cancel(sessionId: Option<string>, o: CancelOracle) returns (report: CancelReport)
      requires Valid()
      modifies this
      ensures (State(), report) == CancelStep(old(State()), sessionId, o)
      ensures Valid()
    {
      CancelKeepsInv(State(), sessionId, o);
      var registered := sessionId.Some? && FindBySession(registry, sessionId.value).Some?;
      var pid := if slot.Some? then Some(slot.value.pid) else None;
      report := RunKillCascade(registered, slot.Some?, pid, o);
      if report.slotTaken {
        killed := killed + [slot.value.handle];
        slot := None;
      }
      if sessionId.Some? {
        events := events + [Cancelled(Scoped(sessionId.value)), Complete(Scoped(sessionId.value), false)];
      }
      events := events + [Cancelled(Generic), Complete(Generic, false)];
      ghost var expected := CancelStep(old(State()), sessionId, o);
      assert expected.0 == State();
    }

    /** `continue_claude_code`. */
    method Continue(built: seq<string>, prompt: string, model: string, projectPath: string,
                    ready: bool, o: SpawnOracle) returns (res: Result<nat>)
      requires Valid()
      modifies this
      ensures (State(), res) == ContinueStep(old(State()), built, prompt, model, projectPath, ready, o)
      ensures Valid()
    {
      if !ready {
        return Err("Claude binary or command unavailable");
      }
      var args := built;
      args := Insert(args, 0, "-c");
      res := Spawn(args, prompt, model, projectPath, o);
    }

    /** `resume_claude_code`. */
    method Resume(sessionId: string, built: seq<string>, prompt: string, model: string, projectPath: string,
                  resumeReady: bool, resumeSpawn: SpawnOracle, continueReady: bool, continueSpawn: SpawnOracle)
      returns (res: Result<nat>)
      requires Valid()
      modifies this
      ensures (State(), res) == ResumeStep(old(State()), sessionId, built, prompt, model, projectPath,
                                           resumeReady, resumeSpawn, continueReady, continueSpawn)
      ensures Valid()
    {
      if !resumeReady {
        return Err("Claude binary or command unavailable");
      }
      var args := built;
      args := Insert(args, 0, "--resume");
      args := Insert(args, 1, sessionId);
      res := Spawn(args, prompt, model, projectPath, resumeSpawn);
      if res.Err? {
        res := Continue(built, prompt, model, projectPath, continueReady, continueSpawn);
      }
    }
  }
}
