/** The inject job of src/inject-cache.ts: before the workflow, put each
    cache source directory into its cache mount by building a throwaway
    image from it.
 */
module Inject {
  import opened Wrappers
  import opened FileSystem
  import opened Transfer
  import opened Text
  import JobId
  import Dancefile
  import Run
  import Logger

  /** The paths and names of one inject job: its scratch directory below
      the configured one, the definition inside it, the buildstamp inside
      the cache source, and the image tag. */
  datatype Layout = Layout(id: string, source: Path, scratch: Path, dancefile: Path, stamp: Path, tag: string)

  /** How the paths of a layout nest. */
  predicate WellFormed(l: Layout) {
    && Within(l.dancefile, l.scratch) && l.dancefile != l.scratch
    && Within(l.stamp, l.source) && l.stamp != l.source
  }

  function Paths(setup: Setup, job: Job): (l: Layout)
    ensures l.id == JobId.CreateJobId(job.source, job.env.unique) && l.source == job.source
    ensures l.scratch == Join(setup.scratchDir, l.id)
    ensures l.stamp == Join(job.source, Dancefile.Buildstamp)
    ensures l.tag == "dance:inject-" + l.id
    ensures WellFormed(l)
  {
    var id := JobId.CreateJobId(job.source, job.env.unique);
    var scratch := Join(setup.scratchDir, id);
    JoinWithin(scratch, "Dancefile.inject");
    JoinWithin(job.source, Dancefile.Buildstamp);
    Layout(id, job.source, scratch, Join(scratch, "Dancefile.inject"), Join(job.source, Dancefile.Buildstamp), "dance:inject-" + id)
  }

  function Definition(setup: Setup, job: Job): string {
    var opts := job.options;
    Dancefile.InjectDancefile(setup.image, opts.mountArgs, opts.targetPath, opts.uid, opts.gid)
  }

  function PreparingMessage(source: Path, builder: string): string {
    "Preparing cache injection for source '" + source + "' using builder '" + builder + "'."
  }

  function PreparedMessage(source: Path): string {
    "Working directory prepared at '" + source + "'."
  }

  function StampMessage(stamp: string): string {
    "Build timestamp written for cache busting: " + stamp + "."
  }

  function DefinitionMessage(dancefile: Path, content: string): string {
    "Dancefile for injection written to '" + dancefile + "':\n" + content
  }

  function RunningMessage(source: Path): string {
    "Running docker buildx to inject cache for '" + source + "'."
  }

  function CleanupNotice(source: Path, e: Error): string {
    "Error while cleaning cache source directory at '" + source + "': " + ErrorText(e) + ". Ignoring..."
  }

  function CompletedMessage(source: Path): string {
    "Cache injection completed for source '" + source + "'."
  }

  /** `docker buildx build --builder <b> -f <definition> --tag <tag>
      <source>`: the cache source is the build context. */
  function BuildCommand(builder: string, l: Layout): Run.Command {
    Run.Command("docker", ["buildx", "build", "--builder", builder, "-f", l.dancefile, "--tag", l.tag, l.source])
  }

  /** Reset the scratch directory, create the cache source, write the
      buildstamp into it and the definition into the scratch directory. */
  function Prepare(l: Layout, stamp: string, content: string): seq<Action> {
    [ Action(Step(ResetScratch, Delete(l.scratch)), Propagate, []),
      Action(Step(CreateScratch, CreateDirs(l.scratch)), Propagate, []),
      Action(Step(CreateSource, CreateDirs(l.source)), Propagate, [Logger.Verbose(PreparedMessage(l.source))]),
      Action(Step(WriteStamp, Write(l.stamp, stamp)), Propagate, [Logger.Verbose(StampMessage(stamp))]),
      Action(Step(WriteDefinition, Write(l.dancefile, content)), Propagate,
             [Logger.Verbose(DefinitionMessage(l.dancefile, content)), Logger.Logged(Logger.Info, RunningMessage(l.source))]) ]
  }

  /** The build, which exports nothing: the copy lands in the cache mount. */
  function BuildAction(l: Layout, builder: string): Action {
    Action(Step(Build, BuildImage(BuildCommand(builder, l), None)), Propagate, [])
  }

  /** Remove the cache source, tolerating failure with a notice, then the
      scratch directory. */
  function Cleanup(l: Layout): seq<Action> {
    [ Action(Step(RemoveSource, Delete(l.source)),
             Tolerate("Error while cleaning cache source directory at '" + l.source + "': ", ". Ignoring..."), []),
      Action(Step(RemoveScratch, Delete(l.scratch)), Propagate, [Logger.Logged(Logger.Info, CompletedMessage(l.source))]) ]
  }

  function Plan(l: Layout, builder: string, stamp: string, content: string): seq<Action> {
    Prepare(l, stamp, content) + [BuildAction(l, builder)] + Cleanup(l)
  }

  function Actions(setup: Setup, job: Job): seq<Action> {
    Plan(Paths(setup, job), setup.builder, job.env.stamp, Definition(setup, job))
  }

  /** `injectCache` for one entry of the cache map; the announcement comes
      before the first call. */
  function InjectCache(fs: Fs, setup: Setup, job: Job): Progress {
    RunActions(Start(fs, Announced(setup, job)), job.env.oracle, Actions(setup, job))
  }

  lemma PrepareAscending(l: Layout, stamp: string, content: string)
    ensures Ascending(Prepare(l, stamp, content))
  {
  }

  lemma CleanupAscending(l: Layout)
    ensures Ascending(Cleanup(l))
  {
  }

  lemma PlanAscending(l: Layout, builder: string, stamp: string, content: string)
    ensures Ascending(Plan(l, builder, stamp, content))
  {
    PrepareAscending(l, stamp, content);
    CleanupAscending(l);
    AscendingAppend(Prepare(l, stamp, content), [BuildAction(l, builder)]);
    AscendingAppend(Prepare(l, stamp, content) + [BuildAction(l, builder)], Cleanup(l));
  }
  /** The inject job makes its calls in the canonical order. */
  lemma InjectInOrder(fs: Fs, setup: Setup, job: Job)
    ensures InOrder(InjectCache(fs, setup, job).trace)
  {
    PlanAscending(Paths(setup, job), setup.builder, job.env.stamp, Definition(setup, job));
    JobInOrder(fs, Announced(setup, job), job.env.oracle, Actions(setup, job));
  }

  // ---------------------------------------------------------------------
  // Effects, phase by phase

  /** The log calls of a successful preparation. */
  function PrepareLogs(l: Layout, stamp: string, content: string): seq<Logger.Call> {
    [ Logger.Verbose(PreparedMessage(l.source)), Logger.Verbose(StampMessage(stamp)),
      Logger.Verbose(DefinitionMessage(l.dancefile, content)), Logger.Logged(Logger.Info, RunningMessage(l.source)) ]
  }

  /** What the job has set up once preparation succeeded. */
  ghost predicate Prepared(fs: Fs, l: Layout, stamp: string) {
    && l.scratch in fs && fs[l.scratch] == Dir
    && l.source in fs && fs[l.source] == Dir
    && Lookup(fs, l.stamp) == Some(File(stamp))
  }

  /** A successful preparation logs the messages of its last three
      steps, in order. */
  lemma PrepareLog(p: Progress, o: Oracle, l: Layout, stamp: string, content: string)
    ensures var r := RunActions(p, o, Prepare(l, stamp, content));
      r.outcome.Pass? ==> r.log == p.log + PrepareLogs(l, stamp, content)
  {
    var acts := Prepare(l, stamp, content);
    assert forall k :: 0 <= k < |acts| ==> acts[k].recovery.Propagate?;
    PassedLogs(p, o, acts);
    AllLogsOfFive(acts);
    assert acts[0].logs + (acts[1].logs + (acts[2].logs + (acts[3].logs + acts[4].logs))) == PrepareLogs(l, stamp, content);
  }

  lemma AllLogsOfFive(acts: seq<Action>)
    requires |acts| == 5
    ensures AllLogs(acts) == acts[0].logs + (acts[1].logs + (acts[2].logs + (acts[3].logs + acts[4].logs)))
  {
    assert acts[0..] == acts;
    assert acts[4].logs + [] == acts[4].logs;
    AllLogsFrom(acts, 0);
    AllLogsFrom(acts, 1);
    AllLogsFrom(acts, 2);
    AllLogsFrom(acts, 3);
    AllLogsFrom(acts, 4);
    assert acts[5..] == [];
  }

  /** After a successful preparation the scratch directory and the cache
      source exist, and the buildstamp holds the timestamp. */
  lemma PrepareEffect(p: Progress, o: Oracle, l: Layout, stamp: string, content: string)
    requires WellFormed(l) && Separate(l.source, l.scratch)
    ensures var r := RunActions(p, o, Prepare(l, stamp, content));
      r.outcome.Pass? ==> Prepared(r.fs, l, stamp) && r.log == p.log + PrepareLogs(l, stamp, content)
  {
    PrepareLog(p, o, l, stamp, content);
    PrepareFs(p, o, l, stamp, content);
  }

  lemma PrepareFs(p: Progress, o: Oracle, l: Layout, stamp: string, content: string)
    requires WellFormed(l) && Separate(l.source, l.scratch)
    ensures var r := RunActions(p, o, Prepare(l, stamp, content));
      r.outcome.Pass? ==> Prepared(r.fs, l, stamp)
  {
    PreparedBy(p, o, Prepare(l, stamp, content), l, stamp, content);
  }

  /** The same for any five calls of the preparation's kinds. */
  lemma PreparedBy(p: Progress, o: Oracle, acts: seq<Action>, l: Layout, stamp: string, content: string)
    requires WellFormed(l) && Separate(l.source, l.scratch)
    requires |acts| == 5 && forall k :: 0 <= k < 5 ==> acts[k].recovery.Propagate?
    requires acts[1].step.op == CreateDirs(l.scratch) && acts[2].step.op == CreateDirs(l.source)
    requires acts[3].step.op == Write(l.stamp, stamp) && acts[4].step.op == Write(l.dancefile, content)
    ensures var r := RunActions(p, o, acts);
      r.outcome.Pass? ==> Prepared(r.fs, l, stamp)
  {
    var q1 := Perform(p, o, acts[0]);
    var q2 := Perform(q1, o, acts[1]);
    var q3 := Perform(q2, o, acts[2]);
    var q4 := Perform(q3, o, acts[3]);
    var q5 := Perform(q4, o, acts[4]);
    RunCons(p, o, acts);
    RunCons(q1, o, acts[1..]);
    RunCons(q2, o, acts[2..]);
    RunCons(q3, o, acts[3..]);
    RunCons(q4, o, acts[4..]);
    assert RunActions(p, o, acts) == q5;
    if q5.outcome.Pass? {
      SeparateDisjoint(l.stamp, l.source, l.scratch);
      SeparateDisjoint(l.dancefile, l.scratch, l.source);
      assert l.source != l.scratch;
      assert l.stamp != l.scratch && l.stamp != l.source;
      assert l.dancefile != l.scratch && l.dancefile != l.source && l.dancefile != l.stamp;
      CreatesDir(q1, o, acts[1], l.scratch);
      CreatesDir(q2, o, acts[2], l.source);
      WritesFile(q3, o, acts[3], l.stamp, stamp);
      WritesFile(q4, o, acts[4], l.dancefile, content);
      assert Lookup(q3.fs, l.scratch) == Some(Dir);
      assert Lookup(q4.fs, l.scratch) == Some(Dir) && Lookup(q4.fs, l.source) == Some(Dir);
      assert Lookup(q5.fs, l.scratch) == Some(Dir) && Lookup(q5.fs, l.source) == Some(Dir);
      assert Lookup(q5.fs, l.stamp) == Some(File(stamp));
    }
  }

  /** The build changes nothing on the runner's filesystem: it fails with
      the oracle's error, or passes without logging anything. */
  lemma BuildEffect(p: Progress, o: Oracle, l: Layout, builder: string)
    requires p.outcome.Pass?
    ensures var r := Perform(p, o, BuildAction(l, builder));
      && r.outcome == (if Build in o.faults then Fail(o.faults[Build]) else Pass)
      && r.fs == p.fs && r.log == p.log
  {
    var a := BuildAction(l, builder);
    assert Apply(p.fs, a.step.op, o.staged) == Ok(p.fs);
  }

  /** The notice a failed removal of the cache source adds, if any. */
  function CleanupNotices(l: Layout, o: Oracle): seq<Logger.Call> {
    if RemoveSource in o.faults then [Logger.Logged(Logger.Notice, CleanupNotice(l.source, o.faults[RemoveSource]))] else []
  }

  /** Cleanup fails only when removing the scratch directory fails. A
      failed removal of the cache source is reported as a notice and leaves
      it as it was; otherwise it is gone. The completion message ends a
      successful cleanup. */
  lemma CleanupEffect(p: Progress, o: Oracle, l: Layout)
    requires p.outcome.Pass? && Separate(l.source, l.scratch)
    ensures var r := RunActions(p, o, Cleanup(l));
      && r.outcome == (if RemoveScratch in o.faults then Fail(o.faults[RemoveScratch]) else Pass)
      && r.log == p.log + CleanupNotices(l, o) + (if r.outcome.Pass? then [Logger.Logged(Logger.Info, CompletedMessage(l.source))] else [])
      && (r.outcome.Pass? ==> Absent(r.fs, l.scratch))
      && (r.outcome.Pass? && RemoveSource !in o.faults ==> Absent(r.fs, l.source))
      && (RemoveSource in o.faults ==> SameWithin(r.fs, p.fs, l.source))
  {
    var acts := Cleanup(l);
    RunPair(p, o, acts[0], acts[1]);
    var q1 := Perform(p, o, acts[0]);
    var r := Perform(q1, o, acts[1]);
    if RemoveSource in o.faults {
      var e := o.faults[RemoveSource];
      assert acts[0].recovery.before + ErrorText(e) + acts[0].recovery.after == CleanupNotice(l.source, e);
    }
    assert q1.log == p.log + CleanupNotices(l, o);
    if RemoveSource !in o.faults {
      assert q1.fs == Remove(p.fs, l.source);
    } else {
      assert q1.fs == p.fs;
    }
    if r.outcome.Pass? {
      assert r.fs == Remove(q1.fs, l.scratch);
      if RemoveSource !in o.faults {
        AbsentAgrees(q1.fs, r.fs, l.source);
      }
    }
    if RemoveSource in o.faults {
      forall q | Within(q, l.source) ensures Lookup(r.fs, q) == Lookup(p.fs, q) {
        SeparateDisjoint(q, l.source, l.scratch);
      }
    }
  }

  /** Cleanup fails exactly when removing the scratch directory fails. */
  lemma CleanupOutcome(p: Progress, o: Oracle, l: Layout)
    requires p.outcome.Pass?
    ensures RunActions(p, o, Cleanup(l)).outcome == (if RemoveScratch in o.faults then Fail(o.faults[RemoveScratch]) else Pass)
  {
    RunPair(p, o, Cleanup(l)[0], Cleanup(l)[1]);
  }

  // ---------------------------------------------------------------------
  // One job

  /** The announcement `injectCache` logs first. */
  function Announced(setup: Setup, job: Job): seq<Logger.Call> {
    [Logger.Logged(Logger.Info, PreparingMessage(job.source, setup.builder))]
  }

  /** Running the whole job is running its three phases one after the
      other. */
  lemma InjectPhases(fs: Fs, setup: Setup, job: Job)
    ensures var l := Paths(setup, job);
      var o := job.env.oracle;
      var p1 := RunActions(Start(fs, Announced(setup, job)), o, Prepare(l, job.env.stamp, Definition(setup, job)));
      InjectCache(fs, setup, job) == RunActions(Perform(p1, o, BuildAction(l, setup.builder)), o, Cleanup(l))
  {
    var l := Paths(setup, job);
    var o := job.env.oracle;
    var p := Start(fs, Announced(setup, job));
    var prep := Prepare(l, job.env.stamp, Definition(setup, job));
    var b := BuildAction(l, setup.builder);
    RunActionsAppend(p, o, prep + [b], Cleanup(l));
    RunActionsAppend(p, o, prep, [b]);
    RunSingle(RunActions(p, o, prep), o, b);
  }

  /** A successful injection has removed the scratch directory and, unless
      that removal failed, the cache source; a cache source that could not
      be removed still holds the buildstamp. The log is the announcement,
      the preparation's messages, the notice of a failed removal, and the
      completion message. */
  lemma InjectSucceeded(fs: Fs, setup: Setup, job: Job)
    requires Separate(job.source, Paths(setup, job).scratch)
    ensures var r := InjectCache(fs, setup, job);
      var l := Paths(setup, job);
      var o := job.env.oracle;
      r.outcome.Pass? ==>
        && Build !in o.faults && RemoveScratch !in o.faults
        && Absent(r.fs, l.scratch)
        && (RemoveSource !in o.faults ==> Absent(r.fs, job.source))
        && (RemoveSource in o.faults ==>
              Lookup(r.fs, job.source) == Some(Dir) && Lookup(r.fs, l.stamp) == Some(File(job.env.stamp)))
        && r.log == Announced(setup, job) + PrepareLogs(l, job.env.stamp, Definition(setup, job))
                    + CleanupNotices(l, o) + [Logger.Logged(Logger.Info, CompletedMessage(job.source))]
  {
    InjectPhases(fs, setup, job);
    PhasesSucceeded(Start(fs, Announced(setup, job)), job.env.oracle, Paths(setup, job), setup.builder,
                    job.env.stamp, Definition(setup, job));
  }

  /** The same over any layout and any log so far. */
  lemma PhasesSucceeded(p: Progress, o: Oracle, l: Layout, builder: string, stamp: string, content: string)
    requires WellFormed(l) && Separate(l.source, l.scratch)
    ensures var p1 := RunActions(p, o, Prepare(l, stamp, content));
      var r := RunActions(Perform(p1, o, BuildAction(l, builder)), o, Cleanup(l));
      r.outcome.Pass? ==>
        && Build !in o.faults && RemoveScratch !in o.faults
        && Absent(r.fs, l.scratch)
        && (RemoveSource !in o.faults ==> Absent(r.fs, l.source))
        && (RemoveSource in o.faults ==> Lookup(r.fs, l.source) == Some(Dir) && Lookup(r.fs, l.stamp) == Some(File(stamp)))
        && r.log == p.log + PrepareLogs(l, stamp, content) + CleanupNotices(l, o)
                    + [Logger.Logged(Logger.Info, CompletedMessage(l.source))]
  {
    var p1 := RunActions(p, o, Prepare(l, stamp, content));
    var p2 := Perform(p1, o, BuildAction(l, builder));
    var r := RunActions(p2, o, Cleanup(l));
    if r.outcome.Pass? {
      PrepareEffect(p, o, l, stamp, content);
      BuildEffect(p1, o, l, builder);
      CleanupEffect(p2, o, l);
      assert p2.fs == p1.fs && p2.log == p1.log;
      if RemoveSource in o.faults {
        assert Within(l.source, l.source);
        assert Lookup(r.fs, l.source) == Lookup(p1.fs, l.source) == Some(Dir);
        assert Lookup(r.fs, l.stamp) == Lookup(p1.fs, l.stamp);
      }
    }
  }

  lemma PrepareBeforeBuild(l: Layout, stamp: string, content: string)
    ensures var prep := Prepare(l, stamp, content);
      forall k, x :: 0 <= k < |prep| && x in Steps(prep[k]) ==> Rank(x.stage) < Rank(Build)
  {
  }

  /** A failing build fails the job with the build's error and nothing is
      called after it: when the build was reached, the scratch directory
      and the cache source, buildstamp included, are left in place and the
      completion message is never logged. */
  lemma InjectBuildFailure(fs: Fs, setup: Setup, job: Job)
    requires Build in job.env.oracle.faults
    requires Separate(job.source, Paths(setup, job).scratch)
    ensures var r := InjectCache(fs, setup, job);
      var l := Paths(setup, job);
      && r.outcome.Fail?
      && (forall i :: 0 <= i < |r.trace| ==> Rank(r.trace[i].stage) <= Rank(Build))
      && ((exists i :: 0 <= i < |r.trace| && r.trace[i].stage == Build) ==>
            && r.outcome == Fail(job.env.oracle.faults[Build])
            && Prepared(r.fs, l, job.env.stamp)
            && r.log == Announced(setup, job) + PrepareLogs(l, job.env.stamp, Definition(setup, job)))
  {
    InjectPhases(fs, setup, job);
    PhasesBuildFailure(Start(fs, Announced(setup, job)), job.env.oracle, Paths(setup, job), setup.builder,
                       job.env.stamp, Definition(setup, job));
  }

  /** The same over any layout: a failing build ends the job's phases. */
  lemma PhasesBuildFailure(p: Progress, o: Oracle, l: Layout, builder: string, stamp: string, content: string)
    requires p.trace == [] && Build in o.faults
    requires WellFormed(l) && Separate(l.source, l.scratch)
    ensures var r := RunActions(Perform(RunActions(p, o, Prepare(l, stamp, content)), o, BuildAction(l, builder)), o, Cleanup(l));
      && r.outcome.Fail?
      && (forall i :: 0 <= i < |r.trace| ==> Rank(r.trace[i].stage) <= Rank(Build))
      && ((exists i :: 0 <= i < |r.trace| && r.trace[i].stage == Build) ==>
            && r.outcome == Fail(o.faults[Build])
            && Prepared(r.fs, l, stamp)
            && r.log == p.log + PrepareLogs(l, stamp, content))
  {
    var prep := Prepare(l, stamp, content);
    var b := BuildAction(l, builder);
    PrepareBeforeBuild(l, stamp, content);
    FailedCallTrace(p, o, prep, b);
    PrepareEffect(p, o, l, stamp, content);
    var p1 := RunActions(p, o, prep);
    if p1.outcome.Pass? {
      BuildEffect(p1, o, l, builder);
    }
  }

  /** The paths an inject job may change: its scratch directory and the
      cache source. */
  function InjectFootprint(l: Layout): Footprint {
    Footprint({l.scratch, l.source}, {})
  }

  lemma PlanWithin(l: Layout, builder: string, stamp: string, content: string)
    requires WellFormed(l)
    ensures var plan := Plan(l, builder, stamp, content);
      forall k :: 0 <= k < |plan| ==> ActionWithin(plan[k], InjectFootprint(l))
  {
    var f := InjectFootprint(l);
    assert l.scratch in f.trees && l.source in f.trees;
    assert Covered(l.scratch, f) && Covered(l.source, f) && Covered(l.stamp, f) && Covered(l.dancefile, f);
  }

  /** Whatever fails, the job changes nothing outside its scratch directory
      and the cache source. */
  lemma InjectStaysWithin(fs: Fs, setup: Setup, job: Job)
    ensures Untouched(InjectCache(fs, setup, job).fs, fs, InjectFootprint(Paths(setup, job)))
  {
    var l := Paths(setup, job);
    PlanWithin(l, setup.builder, job.env.stamp, Definition(setup, job));
    RunActionsWithin(Start(fs, Announced(setup, job)), job.env.oracle, Actions(setup, job), InjectFootprint(l));
  }

  /** The same job with an oracle under which removing the cache source
      succeeds. */
  function SourceRemovable(job: Job): (j: Job)
    ensures j.source == job.source && j.options == job.options
    ensures j.env.unique == job.env.unique && j.env.stamp == job.env.stamp
    ensures j.env.oracle.staged == job.env.oracle.staged
    ensures RemoveSource !in j.env.oracle.faults
    ensures forall s :: s != RemoveSource ==> AgreeOn(j.env.oracle, job.env.oracle, s)
  {
    var o := job.env.oracle;
    job.(env := job.env.(oracle := o.(faults := o.faults - {RemoveSource})))
  }

  /** Oracles that agree on everything but the removal of the cache
      source bring a job's phases to the same outcome. */
  lemma PhasesAgree(p: Progress, o: Oracle, o2: Oracle, prep: seq<Action>, b: Action, l: Layout)
    requires o.staged == o2.staged && forall s :: s != RemoveSource ==> AgreeOn(o, o2, s)
    requires forall k, x :: 0 <= k < |prep| && x in Steps(prep[k]) ==> Rank(x.stage) < Rank(Build)
    requires b.step.stage == Build && !b.recovery.OnCode?
    ensures RunActions(Perform(RunActions(p, o, prep), o, b), o, Cleanup(l)).outcome
         == RunActions(Perform(RunActions(p, o2, prep), o2, b), o2, Cleanup(l)).outcome
  {
    forall k, x | 0 <= k < |prep| && x in Steps(prep[k]) ensures AgreeOn(o, o2, x.stage) {
      assert Rank(x.stage) < Rank(Build);
    }
    RunAgrees(p, o, o2, prep);
    var p1 := RunActions(p, o, prep);
    assert Steps(b) == [b.step] && AgreeOn(o, o2, Build);
    PerformAgrees(p1, o, o2, b);
    var p2 := Perform(p1, o, b);
    if p2.outcome.Pass? {
      assert AgreeOn(o, o2, RemoveScratch);
      CleanupOutcome(p2, o, l);
      CleanupOutcome(p2, o2, l);
    }
  }

  /** A failure to remove the cache source never decides the job's
      outcome: the job ends the same way when that removal succeeds. */
  lemma InjectCleanupTolerated(fs: Fs, setup: Setup, job: Job)
    ensures InjectCache(fs, setup, job).outcome == InjectCache(fs, setup, SourceRemovable(job)).outcome
  {
    var o2 := SourceRemovable(job).env.oracle;
    assert SourceRemovable(job) == job.(env := job.env.(oracle := o2));
    ToleratedBy(fs, setup, job, o2);
  }

  /** The same for any oracle that differs from the job's at most in how
      the removal of the cache source goes. */
  lemma ToleratedBy(fs: Fs, setup: Setup, job: Job, o2: Oracle)
    requires o2.staged == job.env.oracle.staged
    requires forall s :: s != RemoveSource ==> AgreeOn(o2, job.env.oracle, s)
    ensures InjectCache(fs, setup, job).outcome == InjectCache(fs, setup, job.(env := job.env.(oracle := o2))).outcome
  {
    var job2 := job.(env := job.env.(oracle := o2));
    assert Actions(setup, job2) == Actions(setup, job);
    PlanTolerated(Start(fs, Announced(setup, job)), job.env.oracle, o2,
      Paths(setup, job), setup.builder, job.env.stamp, Definition(setup, job));
  }

  lemma PlanTolerated(p: Progress, o: Oracle, o2: Oracle, l: Layout, builder: string, stamp: string, content: string)
    requires o2.staged == o.staged && forall s :: s != RemoveSource ==> AgreeOn(o2, o, s)
    ensures RunActions(p, o, Plan(l, builder, stamp, content)).outcome == RunActions(p, o2, Plan(l, builder, stamp, content)).outcome
  {
    var prep := Prepare(l, stamp, content);
    var b := BuildAction(l, builder);
    RunActionsAppend(p, o, prep + [b], Cleanup(l));
    RunActionsAppend(p, o, prep, [b]);
    RunSingle(RunActions(p, o, prep), o, b);
    RunActionsAppend(p, o2, prep + [b], Cleanup(l));
    RunActionsAppend(p, o2, prep, [b]);
    RunSingle(RunActions(p, o2, prep), o2, b);
    PrepareBeforeBuild(l, stamp, content);
    PhasesAgree(p, o2, o, prep, b, l);
  }

  // ---------------------------------------------------------------------
  // All caches

  function InjectingMessage(count: nat, image: string): string {
    "Injecting " + NatToString(count) + " cache mount(s) using image '" + image + "'."
  }

  function FailureWarning(source: Path, e: Error): string {
    "Cache injection failed for '" + source + "': " + ErrorText(e)
  }

  /** What one job contributes to the log: its own calls, then a warning
      naming the cache source and the error when it failed. */
  function Reported(run: Progress, job: Job): seq<Logger.Call> {
    run.log + (if run.outcome.Fail? then [Logger.Logged(Logger.Warning, FailureWarning(job.source, run.outcome.error))] else [])
  }

  /** The log of all jobs, each job's report in map order. */
  function Reports(runs: seq<Progress>, jobs: seq<Job>): seq<Logger.Call>
    requires |runs| == |jobs|
  {
    if runs == [] then [] else Reported(runs[0], jobs[0]) + Reports(runs[1..], jobs[1..])
  }

  /** Every failed job's warning appears in the log, and when every job
      succeeded the log is just the jobs' own calls. */
  lemma {:induction false} ReportsWarn(runs: seq<Progress>, jobs: seq<Job>)
    requires |runs| == |jobs|
    ensures (forall k :: 0 <= k < |runs| ==> runs[k].outcome.Pass?) ==> Reports(runs, jobs) == Logs(runs)
    ensures forall k :: 0 <= k < |runs| && runs[k].outcome.Fail? ==>
      Logger.Logged(Logger.Warning, FailureWarning(jobs[k].source, runs[k].outcome.error)) in Reports(runs, jobs)
    decreases |runs|
  {
    if runs != [] {
      ReportsWarn(runs[1..], jobs[1..]);
      assert forall k :: 1 <= k < |runs| ==> runs[1..][k - 1] == runs[k] && jobs[1..][k - 1] == jobs[k];
    }
  }

  /** Every failed job is followed by its warning: the job's calls and then
      the warning sit right after the reports of the jobs before it. */
  lemma WarningFollowsJob(runs: seq<Progress>, jobs: seq<Job>)
    requires |runs| == |jobs|
    ensures forall k :: 0 <= k < |runs| && runs[k].outcome.Fail? ==>
      var at := |Reports(runs[..k], jobs[..k])|;
      && at + |runs[k].log| < |Reports(runs, jobs)|
      && Reports(runs, jobs)[at..at + |runs[k].log| + 1]
         == runs[k].log + [Logger.Logged(Logger.Warning, FailureWarning(jobs[k].source, runs[k].outcome.error))]
  {
    forall k | 0 <= k < |runs| && runs[k].outcome.Fail?
      ensures var at := |Reports(runs[..k], jobs[..k])|;
        && at + |runs[k].log| < |Reports(runs, jobs)|
        && Reports(runs, jobs)[at..at + |runs[k].log| + 1]
           == runs[k].log + [Logger.Logged(Logger.Warning, FailureWarning(jobs[k].source, runs[k].outcome.error))]
    {
      ReportsSplit(runs, jobs, k);
    }
  }

  /** The log splits at any job: the reports of the jobs before it, its own
      report, and the reports of the jobs after it. */
  lemma {:induction false} ReportsSplit(runs: seq<Progress>, jobs: seq<Job>, k: nat)
    requires |runs| == |jobs| && k < |runs|
    ensures Reports(runs, jobs)
         == Reports(runs[..k], jobs[..k]) + Reported(runs[k], jobs[k]) + Reports(runs[k + 1..], jobs[k + 1..])
    ensures runs[k].outcome.Fail? ==>
      var at := |Reports(runs[..k], jobs[..k])|;
      && at + |runs[k].log| < |Reports(runs, jobs)|
      && Reports(runs, jobs)[at..at + |runs[k].log| + 1]
         == runs[k].log + [Logger.Logged(Logger.Warning, FailureWarning(jobs[k].source, runs[k].outcome.error))]
    decreases k
  {
    MiddleSlice(Reports(runs[..k], jobs[..k]), Reported(runs[k], jobs[k]), Reports(runs[k + 1..], jobs[k + 1..]));
    if k == 0 {
      assert runs[1..] == runs[k + 1..] && jobs[1..] == jobs[k + 1..];
      assert Reports(runs[..0], jobs[..0]) == [];
    } else {
      ReportsSplit(runs[1..], jobs[1..], k - 1);
      assert runs[1..][..k - 1] == runs[..k][1..] && jobs[1..][..k - 1] == jobs[..k][1..];
      assert runs[1..][k - 1] == runs[k] && jobs[1..][k - 1] == jobs[k];
      assert runs[1..][k..] == runs[k + 1..] && jobs[1..][k..] == jobs[k + 1..];
      assert runs[..k][0] == runs[0] && jobs[..k][0] == jobs[0];
      var head := Reported(runs[0], jobs[0]);
      var mid := Reports(runs[1..][..k - 1], jobs[1..][..k - 1]);
      var mine := Reported(runs[k], jobs[k]);
      var rest := Reports(runs[k + 1..], jobs[k + 1..]);
      AppendAssoc(head, mid + mine, rest);
      AppendAssoc(head, mid, mine);
    }
  }

  /** Every job of the cache map, in map order. */
  function InjectAll(fs: Fs, setup: Setup, jobs: seq<Job>): (runs: seq<Progress>)
    ensures |runs| == |jobs|
    ensures forall k :: 0 <= k < |jobs| ==> runs[k] == InjectCache(if k == 0 then fs else runs[k - 1].fs, setup, jobs[k])
  {
    RunJobs(fs, jobs, (f, j) => InjectCache(f, setup, j))
  }

  /** `injectCaches`: a cache map that cannot be read fails the run before
      anything is logged; otherwise the number of entries is announced,
      every job runs, each failure is reported with a warning, and the run
      fails with the first failing job's error. */
  function InjectCaches(fs: Fs, cacheMap: Result<seq<Job>>, setup: Setup): (r: Batch)
    ensures cacheMap.Err? ==> r == Batch(fs, Fail(cacheMap.error), [], [])
    ensures cacheMap.Ok? ==>
      && r.runs == InjectAll(fs, setup, cacheMap.value)
      && (r.outcome.Pass? <==> AllPassed(r.runs))
      && (r.outcome.Fail? ==> FirstFailure(r.runs, r.outcome))
      && r.fs == Final(fs, r.runs)
      && r.log == [Logger.Logged(Logger.Info, InjectingMessage(|cacheMap.value|, setup.image))] + Reports(r.runs, cacheMap.value)
  {
    match cacheMap
    case Err(e) => Batch(fs, Fail(e), [], [])
    case Ok(jobs) =>
      var runs := InjectAll(fs, setup, jobs);
      Batch(Final(fs, runs), AwaitAll(runs),
            [Logger.Logged(Logger.Info, InjectingMessage(|jobs|, setup.image))] + Reports(runs, jobs), runs)
  }
}
