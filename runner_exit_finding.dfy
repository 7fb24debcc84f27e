/** The exit waiter of the session runner takes whatever child occupies the legacy
    slot. This module exhibits the trace in which that loses a session's completion,
    and proves that waiters reporting on their own child do not. */
module RunnerExitFinding {
  import opened Wrappers
  import opened CliRunner

  /** A spawn followed by the first stdout line of the new process. */
  function SpawnThenLine(s: Runtime, args: seq<string>, prompt: string, model: string, path: string,
                         o: SpawnOracle, line: Line, acc: bool): (r: Runtime)
    requires o.ok && HandlesBelow(s)
    ensures HandlesBelow(r) && r.nextHandle == s.nextHandle + 1
    ensures r.slot == Some(Child(s.nextHandle, o.pid))
    ensures r.replaced == s.replaced + (if s.slot.Some? then {s.slot.value.handle} else {})
    ensures s.nextHandle in r.routers && r.routers[s.nextHandle].sessionId == LineSessionId(line)
    ensures forall k :: k in s.routers ==> k in r.routers && r.routers[k] == s.routers[k]
  {
    var s1 := SpawnStep(s, args, prompt, model, path, o).0;
    StdoutStepRouters(s1, s.nextHandle, line, acc);
    StdoutStep(s1, s.nextHandle, line, acc)
  }

  /** Two processes started back to back from `s0`, each of which announces its session
      before either exits: the second spawn kills the first child and takes the slot. */
  lemma OverlapShape(s0: Runtime, args: seq<string>, pA: string, pB: string, model: string, path: string,
                     oA: SpawnOracle, oB: SpawnOracle, la: Line, lb: Line, acc: bool)
    requires oA.ok && oB.ok && HandlesBelow(s0)
    ensures var s4 := SpawnThenLine(SpawnThenLine(s0, args, pA, model, path, oA, la, acc), args, pB, model, path, oB, lb, acc);
      && s0.nextHandle in s4.routers && s0.nextHandle + 1 in s4.routers
      && s4.slot == Some(Child(s0.nextHandle + 1, oB.pid))
      && s0.nextHandle in s4.replaced
      && s4.routers[s0.nextHandle].sessionId == LineSessionId(la)
      && s4.routers[s0.nextHandle + 1].sessionId == LineSessionId(lb)
  {
  }

  /** The state OverlapShape reaches, when both processes announced sessions `a` and `b`:
      A's waiter then waits on B's child and reports it as A's completion, and B's
      waiter finds the slot empty, so no completion is ever emitted for session `b`,
      whatever the exit statuses. */
  lemma ReplacedSessionNeverCompletes(s: Runtime, hA: nat, hB: nat, a: string, b: string,
                                      wa: WaitOutcome, wb: WaitOutcome)
    requires hA in s.routers && hB in s.routers && hA != hB
    requires s.slot.Some? && s.slot.value.handle == hB
    requires s.routers[hA].sessionId == Some(a) && s.routers[hB].sessionId == Some(b) && a != b
    ensures var s2 := ExitStep(ExitStep(s, hA, wa), hB, wb);
      && s2.events == s.events + CompletionEvents(Some(a), wa)
      && (forall ok :: Complete(Scoped(b), ok) !in s2.events[|s.events|..])
  {
    var s1 := ExitStep(s, hA, wa);
    var s2 := ExitStep(s1, hB, wb);
    assert s2.events[|s.events|..] == CompletionEvents(Some(a), wa);
  }

  /** The successes of the completions emitted on session `sid`'s own channel, in order. */
  function CompletionsFor(evs: seq<Event>, sid: string): seq<bool>
    decreases |evs|
  {
    if evs == [] then []
    else
      var e := evs[|evs| - 1];
      CompletionsFor(evs[..|evs| - 1], sid) + (if e.Complete? && e.ch == Scoped(sid) then [e.success] else [])
  }

  lemma {:induction false} CompletionsForAppend(a: seq<Event>, b: seq<Event>, sid: string)
    ensures CompletionsFor(a + b, sid) == CompletionsFor(a, sid) + CompletionsFor(b, sid)
    decreases |b|
  {
    if b == [] {
      assert a + b == a;
    } else {
      assert (a + b)[..|a + b| - 1] == a + b[..|b| - 1];
      CompletionsForAppend(a, b[..|b| - 1], sid);
    }
  }

  /** A waiter's report completes its own session once, with its status, and no other. */
  lemma CompletionsOfReport(x: string, w: WaitOutcome, sid: string)
    ensures CompletionsFor(CompletionEvents(Some(x), w), sid) ==
      (if sid == x then [w.Exited? && w.success] else [])
  {
    var ok := w.Exited? && w.success;
    var e0, e1, e2 := SessionStopped(x, ok, w.WaitFailed?), Complete(Scoped(x), ok), Complete(Generic, ok);
    assert CompletionEvents(Some(x), w) == [e0, e1, e2];
    assert [e0, e1, e2][..2] == [e0, e1] && [e0, e1][..1] == [e0] && [e0][..0] == [];
    assert CompletionsFor([e0], sid) == [];
    assert CompletionsFor([e0, e1], sid) == (if sid == x then [ok] else []);
    assert CompletionsFor([e0, e1, e2], sid) == CompletionsFor([e0, e1], sid);
  }

  /** Two reports, on sessions `a` and `b`, complete each of them exactly once. */
  lemma CompletionsOfTwoReports(a: string, wa: WaitOutcome, b: string, wb: WaitOutcome)
    requires a != b
    ensures CompletionsFor(CompletionEvents(Some(a), wa) + CompletionEvents(Some(b), wb), a) == [wa.Exited? && wa.success]
    ensures CompletionsFor(CompletionEvents(Some(a), wa) + CompletionEvents(Some(b), wb), b) == [wb.Exited? && wb.success]
  {
    CompletionsForAppend(CompletionEvents(Some(a), wa), CompletionEvents(Some(b), wb), a);
    CompletionsForAppend(CompletionEvents(Some(a), wa), CompletionEvents(Some(b), wb), b);
    CompletionsOfReport(a, wa, a);
    CompletionsOfReport(a, wa, b);
    CompletionsOfReport(b, wb, a);
    CompletionsOfReport(b, wb, b);
  }

  /** From the same state, waiters that report on their own child complete each session
      exactly once, under its own id, whichever waiter runs first: the replaced child of
      A as failed, since the second spawn killed it, and B's child with its own status.
      A's waiter leaves B's child in the slot. */
  lemma OwnedExitCompletesEach(s: Runtime, hA: nat, hB: nat, a: string, b: string,
                               wa: WaitOutcome, wb: WaitOutcome)
    requires hA in s.routers && hB in s.routers && hA != hB
    requires s.slot.Some? && s.slot.value.handle == hB && hA in s.replaced
    requires s.routers[hA].sessionId == Some(a) && s.routers[hB].sessionId == Some(b) && a != b
    ensures var s1 := ExitStepOwned(s, hA, wa);
      && s1.slot == s.slot && hB in s1.routers
      && var s2 := ExitStepOwned(s1, hB, wb);
      && s2.slot == None
      && s2.events == s.events + CompletionEvents(Some(a), Exited(false)) + CompletionEvents(Some(b), wb)
      && CompletionsFor(s2.events[|s.events|..], a) == [false]
      && CompletionsFor(s2.events[|s.events|..], b) == [wb.Exited? && wb.success]
    ensures var t1 := ExitStepOwned(s, hB, wb);
      && t1.slot == None && hA in t1.routers
      && var t2 := ExitStepOwned(t1, hA, wa);
      && t2.events == s.events + CompletionEvents(Some(b), wb) + CompletionEvents(Some(a), Exited(false))
      && CompletionsFor(t2.events[|s.events|..], a) == [false]
      && CompletionsFor(t2.events[|s.events|..], b) == [wb.Exited? && wb.success]
  {
    var s1 := ExitStepOwned(s, hA, wa);
    var s2 := ExitStepOwned(s1, hB, wb);
    assert s2.events[|s.events|..] == CompletionEvents(Some(a), Exited(false)) + CompletionEvents(Some(b), wb);
    CompletionsOfTwoReports(a, Exited(false), b, wb);
    var t1 := ExitStepOwned(s, hB, wb);
    var t2 := ExitStepOwned(t1, hA, wa);
    assert t2.events[|s.events|..] == CompletionEvents(Some(b), wb) + CompletionEvents(Some(a), Exited(false));
    CompletionsOfTwoReports(b, wb, a, Exited(false));
  }

  /** The waiters as written give session `b` no completion at all. */
  lemma WrittenExitMissesReplacement(s: Runtime, hA: nat, hB: nat, a: string, b: string,
                                     wa: WaitOutcome, wb: WaitOutcome)
    requires hA in s.routers && hB in s.routers && hA != hB
    requires s.slot.Some? && s.slot.value.handle == hB
    requires s.routers[hA].sessionId == Some(a) && s.routers[hB].sessionId == Some(b) && a != b
    ensures CompletionsFor(ExitStep(ExitStep(s, hA, wa), hB, wb).events[|s.events|..], b) == []
  {
    var s2 := ExitStep(ExitStep(s, hA, wa), hB, wb);
    assert s2.events[|s.events|..] == CompletionEvents(Some(a), wa);
    CompletionsOfReport(a, wa, b);
  }
}
