/** The machinery both transfer jobs share: a job is a list of actions, each
    one awaited call of the source (an `fs.promises` call or a `run` of
    `docker` or `sudo`), run in order over the abstract filesystem until one
    fails.

    Whether a call fails is decided by an oracle: a map from stage to the
    error that stage's call rejects with (a permission problem, a failing
    build, a busy directory, ...). A stage the oracle does not fail behaves
    as the filesystem operation says, which may itself fail (a file in the
    way, a missing rename source). The oracle also says which tree, if
    any, the build exports.
 */
module Transfer {
  import opened Wrappers
  import opened FileSystem
  import Run
  import Logger
  import Dancefile

  /** Every awaited call of either job, in the one order both follow. */
  datatype Stage =
    | ResetScratch | CreateScratch | CreateSource | WriteStamp | WriteDefinition
    | ResetOutput | CreateOutput | Build | CreateParent | RemoveDestination
    | Relocate | CreateEmptyDestination | RemoveSource | RemoveScratch

  function Rank(s: Stage): nat {
    match s
    case ResetScratch => 0
    case CreateScratch => 1
    case CreateSource => 2
    case WriteStamp => 3
    case WriteDefinition => 4
    case ResetOutput => 5
    case CreateOutput => 6
    case Build => 7
    case CreateParent => 8
    case RemoveDestination => 9
    case Relocate => 10
    case CreateEmptyDestination => 11
    case RemoveSource => 12
    case RemoveScratch => 13
  }

  /** The operation of one call: `fs.rm` (recursive, forced), `fs.mkdir`
      (recursive), `fs.writeFile`, `fs.rename`, a `docker buildx build`
      that exports to a directory or only to the builder, and a `sudo rm
      -rf`. */
  datatype Op =
    | Delete(path: Path)
    | CreateDirs(path: Path)
    | Write(path: Path, data: string)
    | Rename(src: Path, dst: Path)
    | BuildImage(command: Run.Command, exportTo: Option<Path>)
    | PrivilegedDelete(command: Run.Command, path: Path)

  datatype Step = Step(stage: Stage, op: Op)

  /** What happens when a call fails: the job rejects with the error; the
      error is logged as a notice between two texts and the job goes on;
      or, when the error has the given code, another call is made
      instead. */
  datatype Recovery = Propagate | Tolerate(before: string, after: string) | OnCode(code: string, fallback: Step)

  /** One awaited call, its recovery, and the log calls made after it
      succeeds. */
  datatype Action = Action(step: Step, recovery: Recovery, logs: seq<Logger.Call>)

  datatype Oracle = Oracle(faults: map<Stage, Error>, staged: Option<Tree>)

  /** What the configuration helpers make of one cache mount: the target
      path inside the build container, the mount fragment, and the owner
      and group to restore (empty when not configured). */
  datatype CacheOptions = CacheOptions(targetPath: string, mountArgs: string, uid: string, gid: string)

  /** The settings every job of one run shares: the scratch directory, the
      utility image and the builder. */
  datatype Setup = Setup(scratchDir: Path, image: string, builder: string)

  /** What one job takes from its surroundings: the random job suffix, the
      ISO timestamp written as the buildstamp, and the oracle. */
  datatype JobEnv = JobEnv(unique: string, stamp: string, oracle: Oracle)

  /** One entry of the cache map, with what its job takes from outside. */
  datatype Job = Job(source: Path, options: CacheOptions, env: JobEnv)

  /** A job in progress: the filesystem, the calls made so far, whether it
      has failed, and the log calls made so far. */
  datatype Progress = Progress(fs: Fs, trace: seq<Step>, outcome: Outcome, log: seq<Logger.Call>)

  function Start(fs: Fs, log: seq<Logger.Call>): Progress {
    Progress(fs, [], Pass, log)
  }

  /** Where a build that exports to `dir` leaves the exported cache: the
      `/cache` of the definition's final stage. */
  function ExportedCache(dir: Path): Path {
    dir + Dancefile.ExportDir
  }

  /** The effect of an operation that the oracle lets through. */
  function Apply(fs: Fs, op: Op, staged: Option<Tree>): Result<Fs> {
    match op
    case Delete(p) => Ok(Remove(fs, p))
    case CreateDirs(p) => MakeDirs(fs, p)
    case Write(p, data) => WriteFile(fs, p, data)
    case Rename(src, dst) => Move(fs, src, dst)
    case BuildImage(_, exportTo) =>
      if exportTo.Some? && staged.Some? then Ok(Graft(fs, ExportedCache(exportTo.value), staged.value)) else Ok(fs)
    case PrivilegedDelete(_, p) => Ok(Remove(fs, p))
  }

  /** A call: the oracle's error for its stage, else the operation. */
  function Attempt(fs: Fs, o: Oracle, s: Step): Result<Fs> {
    if s.stage in o.faults then Err(o.faults[s.stage]) else Apply(fs, s.op, o.staged)
  }

  /** A rename the oracle lets through is `Move`. */
  lemma AttemptRename(fs: Fs, o: Oracle, s: Step, src: Path, dst: Path)
    requires s.op == Rename(src, dst) && s.stage !in o.faults
    ensures Attempt(fs, o, s) == Move(fs, src, dst)
  {
  }

  /** A build the oracle lets through grafts the staged tree, if any, at
      the exported cache path of its export directory. */
  lemma AttemptExport(fs: Fs, o: Oracle, s: Step, command: Run.Command, dir: Path)
    requires s.op == BuildImage(command, Some(dir)) && s.stage !in o.faults && o.staged.Some?
    ensures Attempt(fs, o, s) == Ok(Graft(fs, ExportedCache(dir), o.staged.value))
  {
  }

  /** A call the oracle and the filesystem let through passes with the
      filesystem the call produced. */
  lemma PerformOk(p: Progress, o: Oracle, a: Action)
    requires p.outcome.Pass? && Attempt(p.fs, o, a.step).Ok?
    ensures var r := Perform(p, o, a);
      r.outcome.Pass? && r.fs == Attempt(p.fs, o, a.step).value && r.log == p.log + a.logs
  {
  }

  /** The calls an action may make, in order. */
  function Steps(a: Action): seq<Step> {
    if a.recovery.OnCode? then [a.step, a.recovery.fallback] else [a.step]
  }

  /** One action: nothing once the job has failed; otherwise the call is
      recorded, and on success the filesystem moves on and the action's log
      calls follow. A failure is propagated, tolerated with a notice, or
      replaced by the fallback call when its code matches. */
  function Perform(p: Progress, o: Oracle, a: Action): (r: Progress)
    ensures p.outcome.Fail? ==> r == p
    ensures p.outcome.Pass? ==> r.trace == p.trace + [a.step] || r.trace == p.trace + Steps(a)
    ensures p.outcome.Pass? && r.outcome.Pass? ==> a.step in r.trace
    ensures r.outcome.Fail? ==> r.fs == p.fs
  {
    if p.outcome.Fail? then p
    else
      var trace := p.trace + [a.step];
      match Attempt(p.fs, o, a.step)
      case Ok(fs) => Progress(fs, trace, Pass, p.log + a.logs)
      case Err(e) =>
        match a.recovery
        case Propagate => Progress(p.fs, trace, Fail(e), p.log)
        case Tolerate(before, after) =>
          Progress(p.fs, trace, Pass, p.log + [Logger.Logged(Logger.Notice, before + ErrorText(e) + after)] + a.logs)
        case OnCode(code, fallback) =>
          if e.code != code then Progress(p.fs, trace, Fail(e), p.log)
          else
            match Attempt(p.fs, o, fallback)
            case Ok(fs) => Progress(fs, trace + [fallback], Pass, p.log + a.logs)
            case Err(e2) => Progress(p.fs, trace + [fallback], Fail(e2), p.log)
  }

  /** An action without recovery that passes made its call, which the
      oracle let through and the filesystem accepted. */
  lemma PerformPassed(p: Progress, o: Oracle, a: Action)
    requires a.recovery.Propagate? && Perform(p, o, a).outcome.Pass?
    ensures p.outcome.Pass? && a.step.stage !in o.faults
    ensures Apply(p.fs, a.step.op, o.staged) == Ok(Perform(p, o, a).fs)
    ensures Perform(p, o, a).log == p.log + a.logs
  {
  }

  /** The actions in order, stopping at the first failure. Once failed a job
      stays as it is, the trace only grows, and a job that passes made the
      main call of every action. */
  function RunActions(p: Progress, o: Oracle, actions: seq<Action>): (r: Progress)
    ensures p.outcome.Fail? ==> r == p
    ensures p.trace <= r.trace
    ensures r.outcome.Pass? ==> p.outcome.Pass? && forall k :: 0 <= k < |actions| ==> actions[k].step in r.trace
    ensures forall i :: |p.trace| <= i < |r.trace| ==> r.trace[i] in Schedule(actions)
    decreases |actions|
  {
    if actions == [] then p
    else
      var next := Perform(p, o, actions[0]);
      var r := RunActions(next, o, actions[1..]);
      assert Schedule(actions) == Steps(actions[0]) + Schedule(actions[1..]);
      forall i | |p.trace| <= i < |r.trace| ensures r.trace[i] in Schedule(actions) {
        if i < |next.trace| {
          assert next.trace[i] in Steps(actions[0]);
        }
      }
      assert r.outcome.Pass? ==> actions[0].step in r.trace by {
        if r.outcome.Pass? {
          assert next.outcome.Pass?;
          var i :| 0 <= i < |next.trace| && next.trace[i] == actions[0].step;
          assert r.trace[i] == actions[0].step;
        }
      }
      assert forall k :: 1 <= k < |actions| ==> actions[k] == actions[1..][k - 1];
      r
  }

  /** The log calls of a list of actions that all succeed. */
  function AllLogs(actions: seq<Action>): seq<Logger.Call> {
    if actions == [] then [] else actions[0].logs + AllLogs(actions[1..])
  }

  /** The logs of a suffix are its first action's logs followed by the
      rest's. */
  lemma AllLogsFrom(actions: seq<Action>, k: nat)
    requires k < |actions|
    ensures AllLogs(actions[k..]) == actions[k].logs + AllLogs(actions[k + 1..])
  {
    assert actions[k..][1..] == actions[k + 1..];
  }

  /** A passing run of actions without recovery logs each action's calls
      in order. */
  lemma {:induction false} PassedLogs(p: Progress, o: Oracle, actions: seq<Action>)
    requires forall k :: 0 <= k < |actions| ==> actions[k].recovery.Propagate?
    ensures RunActions(p, o, actions).outcome.Pass? ==> RunActions(p, o, actions).log == p.log + AllLogs(actions)
    decreases |actions|
  {
    if actions != [] && RunActions(p, o, actions).outcome.Pass? {
      var next := Perform(p, o, actions[0]);
      PerformPassed(p, o, actions[0]);
      assert forall k :: 1 <= k < |actions| ==> actions[1..][k - 1] == actions[k];
      PassedLogs(next, o, actions[1..]);
    }
  }

  /** Two oracles answer a stage the same way. */
  predicate AgreeOn(o1: Oracle, o2: Oracle, s: Stage) {
    && (s in o1.faults <==> s in o2.faults)
    && (s in o1.faults ==> o1.faults[s] == o2.faults[s])
  }

  /** A passing `fs.mkdir` makes its path a directory and changes no other
      path. */
  lemma CreatesDir(p: Progress, o: Oracle, a: Action, d: Path)
    requires a.recovery.Propagate? && a.step.op == CreateDirs(d) && Perform(p, o, a).outcome.Pass?
    ensures Lookup(Perform(p, o, a).fs, d) == Some(Dir)
    ensures forall q :: q != d ==> Lookup(Perform(p, o, a).fs, q) == Lookup(p.fs, q)
  {
    PerformPassed(p, o, a);
  }

  /** A passing `fs.writeFile` puts the data at its path and changes no
      other path. */
  lemma WritesFile(p: Progress, o: Oracle, a: Action, f: Path, data: string)
    requires a.recovery.Propagate? && a.step.op == Write(f, data) && Perform(p, o, a).outcome.Pass?
    ensures Lookup(Perform(p, o, a).fs, f) == Some(File(data))
    ensures forall q :: q != f ==> Lookup(Perform(p, o, a).fs, q) == Lookup(p.fs, q)
  {
    PerformPassed(p, o, a);
  }

  /** Oracles that agree on every stage an action may call, and on the
      exported tree, perform it the same way. */
  lemma PerformAgrees(p: Progress, o1: Oracle, o2: Oracle, a: Action)
    requires o1.staged == o2.staged
    requires forall x :: x in Steps(a) ==> AgreeOn(o1, o2, x.stage)
    ensures Perform(p, o1, a) == Perform(p, o2, a)
  {
    assert a.step in Steps(a) && AgreeOn(o1, o2, a.step.stage);
    assert Attempt(p.fs, o1, a.step) == Attempt(p.fs, o2, a.step);
    if a.recovery.OnCode? {
      assert a.recovery.fallback in Steps(a) && AgreeOn(o1, o2, a.recovery.fallback.stage);
      assert Attempt(p.fs, o1, a.recovery.fallback) == Attempt(p.fs, o2, a.recovery.fallback);
    }
  }

  /** Oracles that agree on every stage a list of actions may call, and on
      the exported tree, produce the same run. */
  lemma {:induction false} RunAgrees(p: Progress, o1: Oracle, o2: Oracle, actions: seq<Action>)
    requires o1.staged == o2.staged
    requires forall k, x :: 0 <= k < |actions| && x in Steps(actions[k]) ==> AgreeOn(o1, o2, x.stage)
    ensures RunActions(p, o1, actions) == RunActions(p, o2, actions)
    decreases |actions|
  {
    if actions != [] {
      var a := actions[0];
      PerformAgrees(p, o1, o2, a);
      assert forall k :: 1 <= k < |actions| ==> actions[1..][k - 1] == actions[k];
      RunAgrees(Perform(p, o1, a), o1, o2, actions[1..]);
    }
  }

  /** Running two lists is running their concatenation. */
  lemma {:induction false} RunActionsAppend(p: Progress, o: Oracle, a: seq<Action>, b: seq<Action>)
    ensures RunActions(p, o, a + b) == RunActions(RunActions(p, o, a), o, b)
    decreases |a|
  {
    if a == [] {
      assert a + b == b;
    } else {
      assert (a + b)[0] == a[0];
      assert (a + b)[1..] == a[1..] + b;
      RunActionsAppend(Perform(p, o, a[0]), o, a[1..], b);
    }
  }

  /** Running a list is performing its head, then running its tail. */
  lemma RunCons(p: Progress, o: Oracle, actions: seq<Action>)
    requires actions != []
    ensures RunActions(p, o, actions) == RunActions(Perform(p, o, actions[0]), o, actions[1..])
  {
  }

  lemma RunSingle(p: Progress, o: Oracle, a: Action)
    ensures RunActions(p, o, [a]) == Perform(p, o, a)
  {
    assert [a][1..] == [];
  }

  lemma RunPair(p: Progress, o: Oracle, a: Action, b: Action)
    ensures RunActions(p, o, [a, b]) == Perform(Perform(p, o, a), o, b)
  {
    assert [a, b][1..] == [b];
    RunSingle(Perform(p, o, a), o, b);
  }

  /** The outcome of awaiting all jobs: the first failure in list order, or
      success when every job succeeded. */
  function Combined(outcomes: seq<Outcome>): (r: Outcome)
    ensures r.Pass? <==> forall k :: 0 <= k < |outcomes| ==> outcomes[k].Pass?
    ensures r.Fail? ==> exists k :: 0 <= k < |outcomes| && outcomes[k] == r && forall j :: 0 <= j < k ==> outcomes[j].Pass?
    decreases |outcomes|
  {
    if outcomes == [] then Pass
    else if outcomes[0].Fail? then outcomes[0]
    else
      var r := Combined(outcomes[1..]);
      assert forall k :: 1 <= k < |outcomes| ==> outcomes[k] == outcomes[1..][k - 1];
      if r.Fail? then
        var k :| 0 <= k < |outcomes[1..]| && outcomes[1..][k] == r && forall j :: 0 <= j < k ==> outcomes[1..][j].Pass?;
        assert outcomes[k + 1] == r;
        r
      else r
  }

  /** What a run of all jobs of the cache map leaves: the filesystem, the
      combined outcome, the log, and each job's own result in map order. */
  datatype Batch = Batch(fs: Fs, outcome: Outcome, log: seq<Logger.Call>, runs: seq<Progress>)

  /** Jobs run one after another, each on the filesystem the previous one
      left; every job runs, whatever the others do. */
  function RunJobs(fs: Fs, jobs: seq<Job>, run: (Fs, Job) -> Progress): (runs: seq<Progress>)
    ensures |runs| == |jobs|
    ensures forall k :: 0 <= k < |jobs| ==> runs[k] == run(if k == 0 then fs else runs[k - 1].fs, jobs[k])
    decreases |jobs|
  {
    if jobs == [] then []
    else
      var first := run(fs, jobs[0]);
      var rest := RunJobs(first.fs, jobs[1..], run);
      assert forall k :: 1 <= k < |jobs| ==> jobs[k] == jobs[1..][k - 1];
      [first] + rest
  }

  /** The filesystem after a series of jobs. */
  function Final(fs: Fs, runs: seq<Progress>): Fs {
    if runs == [] then fs else runs[|runs| - 1].fs
  }

  /** The log of a series of jobs: each job's log in order. */
  function Logs(runs: seq<Progress>): seq<Logger.Call> {
    if runs == [] then [] else runs[0].log + Logs(runs[1..])
  }

  /** Every job of the series succeeded. */
  predicate AllPassed(runs: seq<Progress>) {
    forall k :: 0 <= k < |runs| ==> runs[k].outcome.Pass?
  }

  /** `outcome` is that of a job of the series, and every job before it
      succeeded. */
  predicate FirstFailure(runs: seq<Progress>, outcome: Outcome) {
    exists k :: 0 <= k < |runs| && runs[k].outcome == outcome && forall j :: 0 <= j < k ==> runs[j].outcome.Pass?
  }

  /** The outcome of awaiting a series of jobs: success when all of them
      succeeded, otherwise the outcome of the first that failed. */
  function AwaitAll(runs: seq<Progress>): (r: Outcome)
    ensures r.Pass? <==> AllPassed(runs)
    ensures r.Fail? ==> FirstFailure(runs, r)
  {
    var outcomes := seq(|runs|, k requires 0 <= k < |runs| => runs[k].outcome);
    assert forall k :: 0 <= k < |runs| ==> outcomes[k] == runs[k].outcome;
    var r := Combined(outcomes);
    if r.Fail? then
      var k :| 0 <= k < |outcomes| && outcomes[k] == r && forall j :: 0 <= j < k ==> outcomes[j].Pass?;
      assert runs[k].outcome == r;
      r
    else r
  }

  // ---------------------------------------------------------------------
  // Order

  /** Calls whose stages strictly follow the canonical order. */
  predicate InOrder(steps: seq<Step>) {
    forall i, j :: 0 <= i < j < |steps| ==> Rank(steps[i].stage) < Rank(steps[j].stage)
  }

  /** Every call the actions could make, in order. */
  function Schedule(actions: seq<Action>): seq<Step> {
    if actions == [] then [] else Steps(actions[0]) + Schedule(actions[1..])
  }

  /** Every scheduled call is a call of one of the actions. */
  lemma {:induction false} ScheduleMembers(actions: seq<Action>, x: Step)
    requires x in Schedule(actions)
    ensures exists k :: 0 <= k < |actions| && x in Steps(actions[k])
    decreases |actions|
  {
    assert Schedule(actions) == Steps(actions[0]) + Schedule(actions[1..]);
    if x !in Steps(actions[0]) {
      ScheduleMembers(actions[1..], x);
      var k :| 0 <= k < |actions[1..]| && x in Steps(actions[1..][k]);
      assert actions[1..][k] == actions[k + 1];
    }
  }

  /** Calls in order, checked neighbour by neighbour. */
  lemma {:induction false} InOrderByNeighbours(steps: seq<Step>)
    requires forall i :: 0 <= i < |steps| - 1 ==> Rank(steps[i].stage) < Rank(steps[i + 1].stage)
    ensures InOrder(steps)
    decreases |steps|
  {
    if |steps| > 1 {
      InOrderByNeighbours(steps[1..]);
      forall j | 0 < j < |steps| ensures Rank(steps[0].stage) < Rank(steps[j].stage) {
        if j > 1 { assert steps[1..][0] == steps[1] && steps[1..][j - 1] == steps[j]; }
      }
      forall i, j | 0 <= i < j < |steps| ensures Rank(steps[i].stage) < Rank(steps[j].stage) {
        if i > 0 { assert steps[1..][i - 1] == steps[i] && steps[1..][j - 1] == steps[j]; }
      }
    }
  }

  lemma {:induction false} ScheduleAppend(a: seq<Action>, b: seq<Action>)
    ensures Schedule(a + b) == Schedule(a) + Schedule(b)
    decreases |a|
  {
    if a == [] {
      assert a + b == b;
    } else {
      assert (a + b)[1..] == a[1..] + b;
      ScheduleAppend(a[1..], b);
    }
  }

  /** Leaving out the tail of one block keeps the calls in order. */
  lemma InOrderDrop(x: seq<Step>, y: seq<Step>, z: seq<Step>, n: nat)
    requires n <= |y| && InOrder(x + y + z)
    ensures InOrder(x + y[..n] + z)
  {
    var s := x + y + z;
    var t := x + y[..n] + z;
    var shift := |y| - n;
    forall i, j | 0 <= i < j < |t| ensures Rank(t[i].stage) < Rank(t[j].stage) {
      var fi := if i < |x| + n then i else i + shift;
      var fj := if j < |x| + n then j else j + shift;
      assert t[i] == s[fi];
      assert t[j] == s[fj];
    }
  }

  /** An action's own calls follow the canonical order. */
  predicate Ordered(a: Action) {
    a.recovery.OnCode? ==> Rank(a.step.stage) < Rank(a.recovery.fallback.stage)
  }

  /** The stage of the last call an action may make. */
  function LastStage(a: Action): Stage {
    if a.recovery.OnCode? then a.recovery.fallback.stage else a.step.stage
  }

  /** Actions ordered one by one and each ending before the next begins. */
  predicate Ascending(actions: seq<Action>) {
    && (forall k :: 0 <= k < |actions| ==> Ordered(actions[k]))
    && (forall k :: 0 <= k < |actions| - 1 ==> Rank(LastStage(actions[k])) < Rank(actions[k + 1].step.stage))
  }

  /** Two ascending lists, the first ending before the second begins. */
  lemma AscendingAppend(a: seq<Action>, b: seq<Action>)
    requires Ascending(a) && Ascending(b)
    requires a != [] && b != [] ==> Rank(LastStage(a[|a| - 1])) < Rank(b[0].step.stage)
    ensures Ascending(a + b)
  {
    var c := a + b;
    forall k | 0 <= k < |c| - 1 ensures Rank(LastStage(c[k])) < Rank(c[k + 1].step.stage) {
      if k + 1 < |a| {
        assert c[k] == a[k] && c[k + 1] == a[k + 1];
      } else if k + 1 == |a| {
        assert c[k] == a[|a| - 1] && c[k + 1] == b[0];
      } else {
        assert c[k] == b[k - |a|] && c[k + 1] == b[k - |a| + 1];
      }
    }
  }

  /** No call of ascending actions comes before the first action's. */
  lemma {:induction false} ScheduleFloor(actions: seq<Action>)
    requires actions != [] && Ascending(actions)
    ensures forall i :: 0 <= i < |Schedule(actions)| ==> Rank(actions[0].step.stage) <= Rank(Schedule(actions)[i].stage)
    ensures forall i :: 0 <= i < |Steps(actions[0])| ==> Rank(Steps(actions[0])[i].stage) <= Rank(LastStage(actions[0]))
    decreases |actions|
  {
    var rest := actions[1..];
    if rest != [] {
      assert Ascending(rest) by {
        assert forall k :: 0 <= k < |rest| ==> rest[k] == actions[k + 1];
      }
      ScheduleFloor(rest);
    }
    assert Schedule(actions) == Steps(actions[0]) + Schedule(rest);
  }

  /** Ascending actions schedule their calls in the canonical order. */
  lemma {:induction false} AscendingInOrder(actions: seq<Action>)
    requires Ascending(actions)
    ensures InOrder(Schedule(actions))
    decreases |actions|
  {
    if actions != [] {
      var rest := actions[1..];
      var head := Steps(actions[0]);
      var s := Schedule(actions);
      assert s == head + Schedule(rest);
      ScheduleFloor(actions);
      if rest != [] {
        assert Ascending(rest) by {
          assert forall k :: 0 <= k < |rest| ==> rest[k] == actions[k + 1];
        }
        AscendingInOrder(rest);
        ScheduleFloor(rest);
      }
      forall i, j | 0 <= i < j < |s| ensures Rank(s[i].stage) < Rank(s[j].stage) {
        if j < |head| {
          assert Ordered(actions[0]);
        } else if i < |head| {
          assert s[j] == Schedule(rest)[j - |head|];
          assert Rank(s[i].stage) <= Rank(LastStage(actions[0]));
        } else {
          assert s[i] == Schedule(rest)[i - |head|] && s[j] == Schedule(rest)[j - |head|];
        }
      }
    }
  }

  /** The action `b` fails whenever it is reached: its call fails and the
      error is neither tolerated nor one its fallback answers. */
  predicate FailsWhenReached(o: Oracle, b: Action) {
    && b.step.stage in o.faults
    && (b.recovery.Propagate? || (b.recovery.OnCode? && o.faults[b.step.stage].code != b.recovery.code))
  }

  /** Calls that come before `b` in the canonical order, then `b`, which
      fails when reached: the job fails, with `b`'s error exactly when `b`
      was reached, which happens exactly when the calls before it
      succeeded; nothing is called past it. */
  lemma FailedCallTrace(p: Progress, o: Oracle, prep: seq<Action>, b: Action)
    requires p.trace == [] && FailsWhenReached(o, b)
    requires forall k, x :: 0 <= k < |prep| && x in Steps(prep[k]) ==> Rank(x.stage) < Rank(b.step.stage)
    ensures var r := Perform(RunActions(p, o, prep), o, b);
      var s := b.step.stage;
      && r.outcome.Fail?
      && (forall i :: 0 <= i < |r.trace| ==> Rank(r.trace[i].stage) <= Rank(s))
      && (forall i :: 0 <= i < |r.trace| && r.trace[i].stage == s ==> r.outcome == Fail(o.faults[s]))
      && ((exists i :: 0 <= i < |r.trace| && r.trace[i].stage == s) <==> RunActions(p, o, prep).outcome.Pass?)
  {
    var p1 := RunActions(p, o, prep);
    var r := Perform(p1, o, b);
    forall i | 0 <= i < |p1.trace| ensures Rank(p1.trace[i].stage) < Rank(b.step.stage) {
      var x := p1.trace[i];
      ScheduleMembers(prep, x);
    }
    if p1.outcome.Pass? {
      assert r.trace == p1.trace + [b.step];
      assert r.trace[|p1.trace|] == b.step;
    }
  }


  /** A job of ascending actions makes its calls in the canonical order,
      whatever fails. */
  lemma JobInOrder(fs: Fs, log: seq<Logger.Call>, o: Oracle, actions: seq<Action>)
    requires Ascending(actions)
    ensures InOrder(RunActions(Start(fs, log), o, actions).trace)
  {
    AscendingInOrder(actions);
    assert Start(fs, log).trace + Schedule(actions) == Schedule(actions);
    RunActionsInOrder(Start(fs, log), o, actions);
  }

  /** A job whose actions are scheduled in the canonical order makes its
      calls in that order, whatever fails. */
  lemma {:induction false} RunActionsInOrder(p: Progress, o: Oracle, actions: seq<Action>)
    requires InOrder(p.trace + Schedule(actions))
    ensures InOrder(RunActions(p, o, actions).trace)
    decreases |actions|
  {
    if actions == [] {
      assert p.trace + Schedule(actions) == p.trace;
    } else if p.outcome.Fail? {
      InOrderDrop(p.trace, Schedule(actions), [], 0);
      assert p.trace + Schedule(actions)[..0] + [] == p.trace;
    } else {
      var a := actions[0];
      var next := Perform(p, o, a);
      var rest := Schedule(actions[1..]);
      assert p.trace + Schedule(actions) == p.trace + Steps(a) + rest;
      if next.trace == p.trace + [a.step] {
        InOrderDrop(p.trace, Steps(a), rest, 1);
        assert Steps(a)[..1] == [a.step];
      } else {
        assert Steps(a)[..|Steps(a)|] == Steps(a);
      }
      RunActionsInOrder(next, o, actions[1..]);
    }
  }

  // ---------------------------------------------------------------------
  // Footprint

  /** Where a job may write: whole trees, and single paths (a directory
      created, a file written) whose surroundings stay as they are. */
  datatype Footprint = Footprint(trees: set<Path>, points: set<Path>)

  /** Some tree of the footprint has `p` within it. */
  predicate Covered(p: Path, f: Footprint) {
    exists root :: root in f.trees && Within(p, root)
  }

  /** `p` is a point of the footprint or lies within one of its trees. */
  predicate Marked(p: Path, f: Footprint) {
    p in f.points || Covered(p, f)
  }

  /** Lies within none of the trees and is none of the points. */
  predicate Outside(q: Path, f: Footprint) {
    q !in f.points && forall root :: root in f.trees ==> !Within(q, root)
  }

  /** Every path outside the footprint looks the same in `a` and `b`. */
  ghost predicate Untouched(a: Fs, b: Fs, f: Footprint) {
    forall q :: Outside(q, f) ==> Lookup(a, q) == Lookup(b, q)
  }

  /** Every path the operation may change is in the footprint. */
  predicate OpWithin(op: Op, f: Footprint) {
    match op
    case Delete(p) => Covered(p, f)
    case CreateDirs(p) => Marked(p, f)
    case Write(p, _) => Marked(p, f)
    case Rename(src, dst) => Covered(src, f) && Covered(dst, f)
    case BuildImage(_, exportTo) => exportTo.None? || Covered(exportTo.value, f)
    case PrivilegedDelete(_, p) => Covered(p, f)
  }

  predicate ActionWithin(a: Action, f: Footprint) {
    OpWithin(a.step.op, f) && (a.recovery.OnCode? ==> OpWithin(a.recovery.fallback.op, f))
  }

  /** Outside the footprint, nothing within a covered path. */
  lemma OutsideNotWithin(q: Path, p: Path, f: Footprint)
    requires Outside(q, f) && Covered(p, f)
    ensures !Within(q, p)
  {
    var root :| root in f.trees && Within(p, root);
    if Within(q, p) { WithinTrans(q, p, root); }
  }

  /** Outside the footprint, not a marked path. */
  lemma OutsideNotMarked(q: Path, p: Path, f: Footprint)
    requires Outside(q, f) && Marked(p, f)
    ensures q != p
  {
    if p !in f.points {
      OutsideNotWithin(q, p, f);
    }
  }

  lemma ExportedCacheWithin(dir: Path)
    ensures Within(ExportedCache(dir), dir)
  {
    assert (dir + "/cache")[..|dir| + 1] == dir + "/";
  }

  /** An operation changes nothing outside its footprint. */
  lemma ApplyWithin(fs: Fs, op: Op, staged: Option<Tree>, f: Footprint)
    requires OpWithin(op, f) && Apply(fs, op, staged).Ok?
    ensures Untouched(Apply(fs, op, staged).value, fs, f)
  {
    var r := Apply(fs, op, staged).value;
    forall q | Outside(q, f) ensures Lookup(r, q) == Lookup(fs, q) {
      match op
      case Delete(p) => OutsideNotWithin(q, p, f);
      case CreateDirs(p) => OutsideNotMarked(q, p, f);
      case Write(p, _) => OutsideNotMarked(q, p, f);
      case Rename(src, dst) =>
        OutsideNotWithin(q, src, f);
        OutsideNotWithin(q, dst, f);
      case BuildImage(_, exportTo) =>
        if exportTo.Some? && staged.Some? {
          ExportedCacheWithin(exportTo.value);
          if Within(q, ExportedCache(exportTo.value)) {
            WithinTrans(q, ExportedCache(exportTo.value), exportTo.value);
          }
          OutsideNotWithin(q, exportTo.value, f);
        }
      case PrivilegedDelete(_, p) => OutsideNotWithin(q, p, f);
    }
  }

  lemma PerformWithin(p: Progress, o: Oracle, a: Action, f: Footprint)
    requires ActionWithin(a, f)
    ensures Untouched(Perform(p, o, a).fs, p.fs, f)
  {
    if p.outcome.Pass? {
      var r := Perform(p, o, a);
      if a.step.stage !in o.faults && Apply(p.fs, a.step.op, o.staged).Ok? {
        ApplyWithin(p.fs, a.step.op, o.staged, f);
      }
      if a.recovery.OnCode? {
        var fb := a.recovery.fallback;
        if fb.stage !in o.faults && Apply(p.fs, fb.op, o.staged).Ok? {
          ApplyWithin(p.fs, fb.op, o.staged, f);
        }
      }
    }
  }

  /** A job whose actions lie within a footprint changes nothing outside
      it, however far it gets. */
  lemma {:induction false} RunActionsWithin(p: Progress, o: Oracle, actions: seq<Action>, f: Footprint)
    requires forall k :: 0 <= k < |actions| ==> ActionWithin(actions[k], f)
    ensures Untouched(RunActions(p, o, actions).fs, p.fs, f)
    decreases |actions|
  {
    if actions != [] {
      PerformWithin(p, o, actions[0], f);
      RunActionsWithin(Perform(p, o, actions[0]), o, actions[1..], f);
    }
  }
}
