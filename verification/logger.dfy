/** The logging facade of src/logger.ts.

    Each logging call goes to the GitHub Actions toolkit first and, when that
    call throws, to the console instead, prefixed with the name of the
    enclosing log group. What the toolkit does, whether it throws, whether it
    runs inside the Actions runtime and the current group name are all
    inputs (`Runtime`); a call produces the lines it emits. The module-level
    `verboseEnabled` flag is the `verbose` field of a `Logger` value that
    `Configure` replaces.
 */
module Logger {
  import opened Wrappers

  /** The toolkit's levels (`core.debug`, `core.info`, ...). */
  datatype Level = Debug | Info | Notice | Warning | Failure

  /** The console methods the fallbacks use. */
  datatype ConsoleMethod = ConsoleLog | ConsoleWarn | ConsoleError | ConsoleDebug

  /** One emitted line: through the toolkit, or on the console. */
  datatype Line = CoreLine(level: Level, text: string) | ConsoleLine(via: ConsoleMethod, text: string)

  /** The environment the logger runs in: whether `GITHUB_ACTIONS` is
      `"true"`, whether the toolkit reports debug mode, the levels whose
      toolkit call throws, and the group name of the current asynchronous
      context. */
  datatype Runtime = Runtime(actions: bool, coreDebug: bool, throwing: set<Level>, group: Option<string>)

  datatype Logger = Logger(verbose: bool, runtime: Runtime)

  /** The module's state before any configuration: verbose output off. */
  function Initial(runtime: Runtime): Logger {
    Logger(false, runtime)
  }

  /** What a caller can ask the logger to do: a call to `logDebug`,
      `logInfo`, `logNotice`, `logWarning` or `logError` with a string, a
      call to `logVerbose`, or a direct `console.log`. */
  datatype Call = Logged(level: Level, message: string) | Verbose(message: string) | Printed(message: string)

  /** The argument of `logError`: a string, or a thrown `Error`. */
  datatype LogArg = Plain(text: string) | Thrown(error: Error)

  /** The level a line is shown at; on the console `log` stands for both
      info and notice. */
  function LevelOf(line: Line): Level {
    match line
    case CoreLine(level, _) => level
    case ConsoleLine(via, _) =>
      match via
      case ConsoleLog => Info
      case ConsoleWarn => Warning
      case ConsoleError => Failure
      case ConsoleDebug => Debug
  }

  /** `formatMessageForConsole`: the message, behind `[<group>] ` when the
      group name is present and non-empty. The message always ends the
      text unchanged. */
  function FormatMessageForConsole(group: Option<string>, message: string): (r: string)
    ensures group.None? || group.value == [] ==> r == message
    ensures group.Some? && group.value != [] ==>
      |r| == |group.value| + 3 + |message| && r[0] == '['
      && r[1..|group.value| + 1] == group.value && r[|group.value| + 1..|group.value| + 3] == "] "
    ensures |message| <= |r| && r[|r| - |message|..] == message
  {
    if group.Some? && group.value != [] then
      var r := "[" + group.value + "] " + message;
      assert r[1..|group.value| + 1] == group.value;
      assert r[|group.value| + 1..|group.value| + 3] == "] ";
      assert r[|r| - |message|..] == message;
      r
    else message
  }

  /** The console method each level falls back to. */
  function ConsoleFor(level: Level): (m: ConsoleMethod)
    ensures LevelOf(ConsoleLine(m, "")) == (if level == Notice then Info else level)
  {
    match level
    case Debug => ConsoleDebug
    case Info => ConsoleLog
    case Notice => ConsoleLog
    case Warning => ConsoleWarn
    case Failure => ConsoleError
  }

  /** `callCore`: the toolkit line, unless the toolkit call throws, in which
      case the fallback's console line; exactly one of the two. */
  function CallCore(runtime: Runtime, level: Level, message: string): (r: seq<Line>)
    ensures |r| == 1
    ensures r[0].ConsoleLine? <==> level in runtime.throwing
    ensures r[0].CoreLine? ==> r[0].level == level && r[0].text == message
    ensures r[0].ConsoleLine? ==> r[0].text == FormatMessageForConsole(runtime.group, message)
    ensures LevelOf(r[0]) == (if r[0].ConsoleLine? && level == Notice then Info else level)
  {
    if level in runtime.throwing then [ConsoleLine(ConsoleFor(level), FormatMessageForConsole(runtime.group, message))]
    else [CoreLine(level, message)]
  }

  /** A line displays `message`: verbatim through the toolkit, formatted
      with the group on the console. */
  predicate Displays(line: Line, group: Option<string>, message: string) {
    line.text == (if line.CoreLine? then message else FormatMessageForConsole(group, message))
  }

  /** The text `logError` reports: the message of an `Error`, the string
      itself otherwise. */
  function ErrorArgText(arg: LogArg): (r: string)
    ensures arg.Plain? ==> r == arg.text
    ensures arg.Thrown? ==> r == arg.error.message
  {
    match arg
    case Plain(t) => t
    case Thrown(e) => e.message
  }

  /** `logError`: one error-level line showing the selected text. */
  function LogError(logger: Logger, arg: LogArg): (r: seq<Line>)
    ensures |r| == 1 && LevelOf(r[0]) == Failure
    ensures Displays(r[0], logger.runtime.group, ErrorArgText(arg))
  {
    CallCore(logger.runtime, Failure, ErrorArgText(arg))
  }

  const VerbosePrefix := "[verbose] "

  /** `logVerbose`: nothing when verbose output is off. Otherwise, outside
      the Actions runtime one console debug line; inside it a debug line,
      followed by an info line when the toolkit is not in debug mode. Every
      line displays the message behind `[verbose] `. */
  function LogVerbose(logger: Logger, message: string): (r: seq<Line>)
    ensures !logger.verbose ==> r == []
    ensures logger.verbose && !logger.runtime.actions ==>
      |r| == 1 && r[0].ConsoleLine? && r[0].via == ConsoleDebug
    ensures logger.verbose && logger.runtime.actions ==>
      |r| == (if logger.runtime.coreDebug then 1 else 2)
      && LevelOf(r[0]) == Debug && (|r| == 2 ==> LevelOf(r[1]) == Info)
    ensures forall k :: 0 <= k < |r| ==> Displays(r[k], logger.runtime.group, VerbosePrefix + message)
    ensures forall k :: 0 <= k < |r| ==> LevelOf(r[k]) == Debug || LevelOf(r[k]) == Info
  {
    if !logger.verbose then []
    else
      var text := VerbosePrefix + message;
      if logger.runtime.actions then
        CallCore(logger.runtime, Debug, text)
        + (if !logger.runtime.coreDebug then CallCore(logger.runtime, Info, text) else [])
      else [ConsoleLine(ConsoleDebug, FormatMessageForConsole(logger.runtime.group, text))]
  }

  /** Every verbose line ends with `[verbose] ` and the message. */
  lemma VerboseLinesCarryPrefix(logger: Logger, message: string, k: nat)
    requires k < |LogVerbose(logger, message)|
    ensures var t := LogVerbose(logger, message)[k].text;
      |t| >= |VerbosePrefix + message| && t[|t| - |VerbosePrefix + message|..] == VerbosePrefix + message
  {
    var r := LogVerbose(logger, message);
    var g := logger.runtime.group;
    var m := VerbosePrefix + message;
    if r[k].ConsoleLine? {
      assert r[k].text == FormatMessageForConsole(g, m);
    } else {
      assert r[k].text == m;
    }
  }

  /** The lines one call emits. */
  function Emit(logger: Logger, call: Call): (r: seq<Line>)
    ensures call.Logged? ==> |r| == 1 && Displays(r[0], logger.runtime.group, call.message)
    ensures call.Printed? ==> r == [ConsoleLine(ConsoleLog, call.message)]
  {
    match call
    case Logged(level, m) => CallCore(logger.runtime, level, m)
    case Verbose(m) => LogVerbose(logger, m)
    case Printed(m) => [ConsoleLine(ConsoleLog, m)]
  }

  /** The lines a sequence of calls emits, in order. */
  function EmitAll(logger: Logger, calls: seq<Call>): (r: seq<Line>)
    ensures !logger.verbose && (forall k :: 0 <= k < |calls| ==> calls[k].Verbose?) ==> r == []
  {
    if calls == [] then [] else Emit(logger, calls[0]) + EmitAll(logger, calls[1..])
  }

  /** Emitting two sequences of calls is emitting their concatenation. */
  lemma {:induction false} EmitAllAppend(logger: Logger, a: seq<Call>, b: seq<Call>)
    ensures EmitAll(logger, a + b) == EmitAll(logger, a) + EmitAll(logger, b)
  {
    if a != [] {
      assert (a + b)[1..] == a[1..] + b;
      EmitAllAppend(logger, a[1..], b);
    } else {
      assert a + b == b;
    }
  }

  /** The logger after `configureLogger` and the lines it emits. */
  datatype Configured = Configured(logger: Logger, lines: seq<Line>)

  /** `configureLogger`: stores the flag, then announces it, through
      `logVerbose` when on and `logDebug` when off. */
  function Configure(logger: Logger, verbose: bool): (r: Configured)
    ensures r.logger == logger.(verbose := verbose)
    ensures verbose ==> r.lines != [] && forall k :: 0 <= k < |r.lines| ==>
      Displays(r.lines[k], logger.runtime.group, VerbosePrefix + "Verbose logging enabled")
    ensures !verbose ==>
      |r.lines| == 1 && LevelOf(r.lines[0]) == Debug
      && Displays(r.lines[0], logger.runtime.group, "Verbose logging disabled")
  {
    var next := logger.(verbose := verbose);
    if verbose then Configured(next, LogVerbose(next, "Verbose logging enabled"))
    else Configured(next, CallCore(next.runtime, Debug, "Verbose logging disabled"))
  }

  /** `isVerboseEnabled`. */
  function IsVerboseEnabled(logger: Logger): bool {
    logger.verbose
  }

  /** The logger after a series of `configureLogger` calls. */
  function ConfigureAll(logger: Logger, flags: seq<bool>): Logger
    decreases |flags|
  {
    if flags == [] then logger else ConfigureAll(Configure(logger, flags[0]).logger, flags[1..])
  }

  /** `isVerboseEnabled` answers with the flag of the last `configureLogger`
      call, and `false` before the first one. */
  lemma {:induction false} VerboseIsLastConfigured(runtime: Runtime, flags: seq<bool>)
    ensures IsVerboseEnabled(ConfigureAll(Initial(runtime), flags)) == (flags != [] && flags[|flags| - 1])
    ensures ConfigureAll(Initial(runtime), flags).runtime == runtime
  {
    LastConfiguredWins(Initial(runtime), flags);
  }

  lemma {:induction false} LastConfiguredWins(logger: Logger, flags: seq<bool>)
    ensures ConfigureAll(logger, flags).verbose == (if flags == [] then logger.verbose else flags[|flags| - 1])
    ensures ConfigureAll(logger, flags).runtime == logger.runtime
    decreases |flags|
  {
    if flags != [] {
      LastConfiguredWins(Configure(logger, flags[0]).logger, flags[1..]);
    }
  }
}
