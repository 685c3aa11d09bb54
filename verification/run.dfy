/** The process helpers of src/run.ts.

    Spawning is not modelled: what a spawned process does is an input, either
    the settled result of `spawn-please` (for `run`) or the sequence of
    events the child process emits (for `assertSuccess` and the helpers
    built on it). A promise that never settles is `Pending`.
 */
module Run {
  import opened Wrappers
  import opened Text
  import opened Logger

  /** A program and its arguments. */
  datatype Command = Command(program: string, args: seq<string>)

  function Words(c: Command): seq<string> {
    [c.program] + c.args
  }

  /** `formatCommand`: the program and arguments joined by single spaces,
      with the whitespace around the whole trimmed away. */
  function FormatCommand(c: Command): (r: string)
    ensures CutFrom(JoinWith(Words(c), " "), r)
    ensures r == [] || (!IsWhitespace(r[0]) && !IsWhitespace(r[|r| - 1]))
  {
    Trim(JoinWith(Words(c), " "))
  }

  /** A non-empty word without whitespace. */
  predicate PlainWord(w: string) {
    w != [] && forall i :: 0 <= i < |w| ==> !IsWhitespace(w[i])
  }

  predicate PlainWords(ws: seq<string>) {
    forall k :: 0 <= k < |ws| ==> PlainWord(ws[k])
  }

  lemma PlainWordsHaveNoSpace(ws: seq<string>)
    requires PlainWords(ws)
    ensures forall k :: 0 <= k < |ws| ==> ' ' !in ws[k]
  {
  }

  /** When program and arguments are plain words the trim removes nothing,
      and splitting the text at spaces gives the words back. */
  lemma FormatCommandRoundTrip(c: Command)
    requires PlainWords(Words(c))
    ensures FormatCommand(c) == JoinWith(Words(c), " ")
    ensures Split(FormatCommand(c), ' ') == Words(c)
  {
    var ws := Words(c);
    JoinWithEnds(ws, " ");
    var j := JoinWith(ws, " ");
    assert !IsWhitespace(ws[|ws| - 1][|ws[|ws| - 1]| - 1]);
    TrimTrimmed(j);
    PlainWordsHaveNoSpace(ws);
    SplitJoin(ws, ' ');
  }

  /** The description `runPiped` logs: both formatted commands around ` | `. */
  function PipedDescription(c1: Command, c2: Command): string {
    FormatCommand(c1) + " | " + FormatCommand(c2)
  }

  /** With plain words the piped description splits at spaces into the
      first command's words, the bar, and the second command's words. */
  lemma PipedDescriptionWords(c1: Command, c2: Command)
    requires PlainWords(Words(c1)) && PlainWords(Words(c2))
    ensures Split(PipedDescription(c1, c2), ' ') == Words(c1) + ["|"] + Words(c2)
  {
    FormatCommandRoundTrip(c1);
    FormatCommandRoundTrip(c2);
    JoinAroundBar(Words(c1), Words(c2));
    NoSpaceAroundBar(Words(c1), Words(c2));
    SplitJoin(Words(c1) + ["|"] + Words(c2), ' ');
  }

  lemma NoSpaceAroundBar(w1: seq<string>, w2: seq<string>)
    requires PlainWords(w1) && PlainWords(w2)
    ensures forall k :: 0 <= k < |w1 + ["|"] + w2| ==> ' ' !in (w1 + ["|"] + w2)[k]
  {
    PlainWordsHaveNoSpace(w1);
    PlainWordsHaveNoSpace(w2);
    var all := w1 + ["|"] + w2;
    forall k | 0 <= k < |all| ensures ' ' !in all[k] {
      if k < |w1| { assert all[k] == w1[k]; }
      else if k > |w1| { assert all[k] == w2[k - |w1| - 1]; }
    }
  }

  lemma JoinAroundBar(w1: seq<string>, w2: seq<string>)
    requires w1 != [] && w2 != []
    ensures JoinWith(w1 + ["|"] + w2, " ") == JoinWith(w1, " ") + " | " + JoinWith(w2, " ")
  {
    JoinWithAppend(w1, ["|"], " ");
    JoinWithAppend(w1 + ["|"], w2, " ");
    var j1 := JoinWith(w1, " ");
    assert JoinWith(["|"], " ") == "|";
    assert j1 + " " + "|" + " " + JoinWith(w2, " ") == j1 + " | " + JoinWith(w2, " ");
  }

  /** The state of a promise. */
  datatype Settlement = Pending | Resolved | Rejected(error: Error)

  /** A promise settles once: a later `resolve` or `reject` is ignored. */
  function Settle(s: Settlement, next: Settlement): Settlement {
    if s.Pending? then next else s
  }

  /** What a child process reports: an `error` event, or a `close` event
      with the exit code (`null` when a signal ended the process). */
  datatype ProcessEvent = ProcessError(error: Error) | Close(code: Option<int>)

  /** `${code}` for an exit code that may be `null`. */
  function CodeText(code: Option<int>): string {
    if code.Some? then IntToString(code.value) else "null"
  }

  /** The `Error` created for an unsuccessful exit; of its stack only the
      first line, which repeats the message, is modelled. */
  function ExitError(code: Option<int>): Error {
    var message := "process exited with code " + CodeText(code);
    Error("", message, "Error: " + message)
  }

  /** The rule `assertSuccess` applies to the event that settles it: an
      `error` rejects with that error, a `close` with code 0 resolves, any
      other code (including `null`) rejects with the exit error. */
  function Verdict(ev: ProcessEvent): Settlement {
    match ev
    case ProcessError(e) => Rejected(e)
    case Close(code) => if code == Some(0) then Resolved else Rejected(ExitError(code))
  }

  /** A settlement and the lines logged on the way to it. */
  datatype Handled = Handled(state: Settlement, lines: seq<Line>)

  /** The stack of a caught error, logged verbosely when it has one. */
  function StackLines(logger: Logger, e: Error): (r: seq<Line>)
    ensures e.stack == [] ==> r == []
    ensures forall k :: 0 <= k < |r| ==> LevelOf(r[k]) != Failure
  {
    if e.stack != [] then LogVerbose(logger, e.stack) else []
  }

  function SuccessMessage(command: string): string {
    "Process exited successfully: " + command
  }

  function FailureMessage(command: string, code: Option<int>): string {
    command + " failed: " + ExitError(code).message
  }

  /** The two listeners of `assertSuccess` exactly as written: after
      rejecting for a non-zero exit, the `close` listener goes on to log
      success and to resolve. */
  function OnEventAsWritten(logger: Logger, command: string, s: Settlement, ev: ProcessEvent): (r: Handled)
    ensures r.state == Settle(s, Verdict(ev))
    ensures ev.Close? && ev.code != Some(0) ==>
      && |r.lines| >= 1 && LevelOf(r.lines[0]) == Failure
      && Displays(r.lines[0], logger.runtime.group, FailureMessage(command, ev.code))
      && (|r.lines| > 1 <==> logger.verbose)
      && forall k :: 1 <= k < |r.lines| ==> Displays(r.lines[k], logger.runtime.group, VerbosePrefix + SuccessMessage(command))
    ensures ev == Close(Some(0)) ==>
      forall k :: 0 <= k < |r.lines| ==> Displays(r.lines[k], logger.runtime.group, VerbosePrefix + SuccessMessage(command))
  {
    match ev
    case ProcessError(e) =>
      Handled(Settle(s, Rejected(e)), LogError(logger, Plain("Process error: " + command)) + StackLines(logger, e))
    case Close(code) =>
      var failed :=
        if code != Some(0) then
          Handled(Settle(s, Rejected(ExitError(code))), LogError(logger, Plain(FailureMessage(command, code))))
        else Handled(s, []);
      Handled(Settle(failed.state, Resolved), failed.lines + LogVerbose(logger, SuccessMessage(command)))
  }

  /** The listeners as evidently intended: the `close` listener stops after
      rejecting. */
  function OnEvent(logger: Logger, command: string, s: Settlement, ev: ProcessEvent): (r: Handled)
    ensures r.state == Settle(s, Verdict(ev))
    ensures ev.Close? && ev.code != Some(0) ==>
      |r.lines| == 1 && LevelOf(r.lines[0]) == Failure
      && Displays(r.lines[0], logger.runtime.group, FailureMessage(command, ev.code))
    ensures ev == Close(Some(0)) ==>
      forall k :: 0 <= k < |r.lines| ==> Displays(r.lines[k], logger.runtime.group, VerbosePrefix + SuccessMessage(command))
  {
    match ev
    case ProcessError(e) =>
      Handled(Settle(s, Rejected(e)), LogError(logger, Plain("Process error: " + command)) + StackLines(logger, e))
    case Close(code) =>
      if code != Some(0) then
        Handled(Settle(s, Rejected(ExitError(code))), LogError(logger, Plain(FailureMessage(command, code))))
      else Handled(Settle(s, Resolved), LogVerbose(logger, SuccessMessage(command)))
  }

  /** The listeners applied to the events in order, from settlement `s`;
      the promise ends up as the first event decided it. */
  function Listen(logger: Logger, command: string, s: Settlement, events: seq<ProcessEvent>, asWritten: bool): (r: Handled)
    ensures r.state == (if s.Pending? && events != [] then Verdict(events[0]) else s)
    decreases |events|
  {
    if events == [] then Handled(s, [])
    else
      var h := if asWritten then OnEventAsWritten(logger, command, s, events[0]) else OnEvent(logger, command, s, events[0]);
      var rest := Listen(logger, command, h.state, events[1..], asWritten);
      Handled(rest.state, h.lines + rest.lines)
  }

  /** `assertSuccess` as written. */
  function AssertSuccessAsWritten(logger: Logger, command: string, events: seq<ProcessEvent>): (r: Handled)
    ensures r.state == (if events == [] then Pending else Verdict(events[0]))
  {
    Listen(logger, command, Pending, events, true)
  }

  /** `assertSuccess` with the missing `return` restored. */
  function AssertSuccess(logger: Logger, command: string, events: seq<ProcessEvent>): (r: Handled)
    ensures r.state == (if events == [] then Pending else Verdict(events[0]))
  {
    Listen(logger, command, Pending, events, false)
  }

  /** As written, a process that exits unsuccessfully is also reported as
      having exited successfully, although the promise stays rejected. */
  lemma AsWrittenReportsSuccessAfterFailure(logger: Logger, command: string, code: Option<int>)
    requires code != Some(0) && logger.verbose
    ensures var h := AssertSuccessAsWritten(logger, command, [Close(code)]);
      && h.state == Rejected(ExitError(code))
      && exists k :: 0 <= k < |h.lines| && Displays(h.lines[k], logger.runtime.group, VerbosePrefix + SuccessMessage(command))
  {
    ListenOnce(logger, command, Close(code), true);
    var failure := LogError(logger, Plain(FailureMessage(command, code)));
    var success := LogVerbose(logger, SuccessMessage(command));
    var lines := failure + success;
    assert OnEventAsWritten(logger, command, Pending, Close(code)).lines == lines;
    assert lines[|failure|] == success[0];
  }

  /** Corrected, an unsuccessful exit logs only the failure. */
  lemma FailedExitReportsOnlyFailure(logger: Logger, command: string, code: Option<int>)
    requires code != Some(0)
    ensures var h := AssertSuccess(logger, command, [Close(code)]);
      && h.state == Rejected(ExitError(code))
      && |h.lines| == 1 && LevelOf(h.lines[0]) == Failure
      && Displays(h.lines[0], logger.runtime.group, FailureMessage(command, code))
  {
    ListenOnce(logger, command, Close(code), false);
  }

  /** Listening to a single event is handling it. */
  lemma ListenOnce(logger: Logger, command: string, ev: ProcessEvent, asWritten: bool)
    ensures Listen(logger, command, Pending, [ev], asWritten)
         == if asWritten then OnEventAsWritten(logger, command, Pending, ev) else OnEvent(logger, command, Pending, ev)
  {
    assert [ev][1..] == [];
    var h := if asWritten then OnEventAsWritten(logger, command, Pending, ev) else OnEvent(logger, command, Pending, ev);
    assert h.lines + [] == h.lines;
  }

  /** The outcome of `spawn-please` and the lines `run` logs. */
  datatype Spawned = Spawned(result: Result<string>, lines: seq<Line>)

  /** `run`: announces the command, awaits the spawn, and either reports
      success or logs the failure and rethrows the same error. An error line
      appears exactly when the command failed. */
  function Run(logger: Logger, c: Command, spawned: Result<string>): (r: Spawned)
    ensures r.result == spawned
    ensures spawned.Err? <==> exists k :: 0 <= k < |r.lines| && LevelOf(r.lines[k]) == Failure
    ensures spawned.Err? ==> exists k ::
      && 0 <= k < |r.lines|
      && LevelOf(r.lines[k]) == Failure && Displays(r.lines[k], logger.runtime.group, "Error running command: " + FormatCommand(c))
  {
    var cs := FormatCommand(c);
    var start := LogVerbose(logger, "Executing command: " + cs);
    match spawned
    case Ok(_) =>
      var lines := start + LogVerbose(logger, "Command succeeded: " + cs);
      assert forall k :: 0 <= k < |lines| ==> LevelOf(lines[k]) != Failure by {
        forall k | 0 <= k < |lines| ensures LevelOf(lines[k]) != Failure {
          if k >= |start| { assert lines[k] == LogVerbose(logger, "Command succeeded: " + cs)[k - |start|]; }
        }
      }
      Spawned(spawned, lines)
    case Err(e) =>
      var report := LogError(logger, Plain("Error running command: " + cs));
      var lines := start + report + StackLines(logger, e);
      assert lines[|start|] == report[0];
      Spawned(spawned, lines)
  }

  /** What `runWithInput` listens to, in the order it arrives: an `error`
      on the child's input stream, or an event of the child process. */
  datatype InputEvent = StdinError(error: Error) | Child(event: ProcessEvent)

  /** The events of the child process alone, in order. */
  function ChildEvents(events: seq<InputEvent>): (r: seq<ProcessEvent>)
    ensures |r| <= |events|
  {
    if events == [] then []
    else (if events[0].Child? then [events[0].event] else []) + ChildEvents(events[1..])
  }

  /** The line logged for a failure to write the input. */
  function StdinLine(logger: Logger, cs: string, e: Error): (r: Line)
    ensures LevelOf(r) == Failure
    ensures Displays(r, logger.runtime.group, "Failed to write to stdin for " + cs + ": " + ErrorText(e))
  {
    LogError(logger, Plain("Failed to write to stdin for " + cs + ": " + ErrorText(e)))[0]
  }

  /** What the code after `await assertSuccess(...)` logs once the promise
      has settled: the success message, or the stack of the rejection. */
  function Continuation(logger: Logger, cs: string, state: Settlement): seq<Line> {
    match state
    case Resolved => LogVerbose(logger, "Command with stdin succeeded: " + cs)
    case Rejected(e) => StackLines(logger, e)
    case Pending => []
  }

  /** The listeners of `runWithInput` applied to the events in the order they
      arrive, from settlement `s`: a stdin error is logged and decides
      nothing, a process event goes to the listeners of `assertSuccess` as
      written, and the continuation runs right after the event that settles
      the promise. */
  function Watch(logger: Logger, cs: string, s: Settlement, events: seq<InputEvent>): (r: Handled)
    ensures r.state == (if s.Pending? && ChildEvents(events) != [] then Verdict(ChildEvents(events)[0]) else s)
    decreases |events|
  {
    if events == [] then Handled(s, [])
    else
      var rest := events[1..];
      match events[0]
      case StdinError(e) =>
        var after := Watch(logger, cs, s, rest);
        Handled(after.state, [StdinLine(logger, cs, e)] + after.lines)
      case Child(ev) =>
        var h := OnEventAsWritten(logger, cs, s, ev);
        var settled := if s.Pending? then Continuation(logger, cs, h.state) else [];
        var after := Watch(logger, cs, h.state, rest);
        Handled(after.state, h.lines + settled + after.lines)
  }

  /** Every stdin error is logged, wherever among the events it arrives. */
  lemma {:induction false} WatchLogsStdinErrors(logger: Logger, cs: string, s: Settlement, events: seq<InputEvent>)
    ensures forall k :: 0 <= k < |events| && events[k].StdinError? ==>
      StdinLine(logger, cs, events[k].error) in Watch(logger, cs, s, events).lines
    decreases |events|
  {
    if events != [] {
      var rest := events[1..];
      assert forall k :: 1 <= k < |events| ==> events[k] == rest[k - 1];
      match events[0]
      case StdinError(e) =>
        WatchLogsStdinErrors(logger, cs, s, rest);
      case Child(ev) =>
        WatchLogsStdinErrors(logger, cs, OnEventAsWritten(logger, cs, s, ev).state, rest);
    }
  }

  /** `runWithInput`: announces the command, then handles the stdin errors
      and the process events in the order they arrive. The outcome is the
      verdict on the first process event; every stdin error is logged. */
  function RunWithInput(logger: Logger, c: Command, events: seq<InputEvent>): (r: Handled)
    ensures r.state == (if ChildEvents(events) == [] then Pending else Verdict(ChildEvents(events)[0]))
    ensures forall k :: 0 <= k < |events| && events[k].StdinError? ==>
      StdinLine(logger, FormatCommand(c), events[k].error) in r.lines
  {
    var cs := FormatCommand(c);
    var watched := Watch(logger, cs, Pending, events);
    WatchLogsStdinErrors(logger, cs, Pending, events);
    Handled(watched.state, LogVerbose(logger, "Executing command with stdin: " + cs) + watched.lines)
  }

  /** Failures to write the input are logged but never decide the outcome:
      `runWithInput` settles as `assertSuccess` does on the process events
      alone. */
  lemma StdinErrorsDoNotDecide(logger: Logger, c: Command, events: seq<InputEvent>)
    ensures RunWithInput(logger, c, events).state
         == AssertSuccessAsWritten(logger, FormatCommand(c), ChildEvents(events)).state
  {
  }

  /** An event of one of the two piped processes. */
  datatype Tagged = Tagged(ofSecond: bool, event: ProcessEvent)

  /** The two `assertSuccess` promises, the `Promise.all` over them, and the
      lines logged so far. */
  datatype Piped = Piped(first: Settlement, second: Settlement, all: Settlement, lines: seq<Line>)

  /** What `Promise.all` does when one of its promises has just been
      handled: reject with its rejection, resolve once both have resolved,
      wait otherwise. */
  function Gather(updated: Settlement, other: Settlement): Settlement {
    if updated.Rejected? then updated
    else if updated.Resolved? && other.Resolved? then Resolved
    else Pending
  }

  /** The invariant of `Promise.all` over two promises: it resolves exactly
      when both have resolved, is rejected exactly when either has been
      rejected, and then with the error of one of them. */
  predicate AllOf(first: Settlement, second: Settlement, all: Settlement) {
    && (all.Resolved? <==> first.Resolved? && second.Resolved?)
    && (all.Rejected? <==> first.Rejected? || second.Rejected?)
    && (all.Rejected? ==> all == first || all == second)
  }

  function PipedFrom(logger: Logger, cs1: string, cs2: string, p: Piped, events: seq<Tagged>): (r: Piped)
    requires AllOf(p.first, p.second, p.all)
    ensures AllOf(r.first, r.second, r.all)
    decreases |events|
  {
    if events == [] then p
    else
      var ev := events[0];
      var next :=
        if ev.ofSecond then
          var h := OnEventAsWritten(logger, cs2, p.second, ev.event);
          Piped(p.first, h.state, Settle(p.all, Gather(h.state, p.first)), p.lines + h.lines)
        else
          var h := OnEventAsWritten(logger, cs1, p.first, ev.event);
          Piped(h.state, p.second, Settle(p.all, Gather(h.state, p.second)), p.lines + h.lines);
      PipedFrom(logger, cs1, cs2, next, events[1..])
  }

  /** `runPiped`: both processes are watched by `assertSuccess` under one
      `Promise.all`; success is logged once both have succeeded. The piped
      command succeeds only if both processes do, and a failure carries the
      error of one of them. */
  function RunPiped(logger: Logger, c1: Command, c2: Command, events: seq<Tagged>): (r: Piped)
    ensures r.all.Resolved? <==> r.first.Resolved? && r.second.Resolved?
    ensures r.all.Rejected? <==> r.first.Rejected? || r.second.Rejected?
    ensures r.all.Rejected? ==> r.all == r.first || r.all == r.second
  {
    var desc := PipedDescription(c1, c2);
    var start := Piped(Pending, Pending, Pending, LogVerbose(logger, "Executing piped command: " + desc));
    var p := PipedFrom(logger, FormatCommand(c1), FormatCommand(c2), start, events);
    if p.all.Resolved? then p.(lines := p.lines + LogVerbose(logger, "Piped command succeeded: " + desc)) else p
  }
}
