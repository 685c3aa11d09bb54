/** The extract job of src/extract-cache.ts: after the workflow, copy each
    cache mount out of the builder and put it in place of its cache source
    directory.
 */
module Extract {
  import opened Wrappers
  import opened FileSystem
  import opened Transfer
  import JobId
  import Dancefile
  import Run
  import Logger

  /** The paths of one extract job: its scratch directory below the
      configured one, named by the job identity, and inside it the output
      directory, the buildstamp, the definition and the exported cache. */
  datatype Layout = Layout(id: string, scratch: Path, output: Path, stamp: Path, dancefile: Path, staged: Path)

  function Paths(setup: Setup, job: Job): (l: Layout)
    ensures l.id == JobId.CreateJobId(job.source, job.env.unique)
    ensures l.scratch == Join(setup.scratchDir, l.id) && |l.scratch| >= 3
    ensures l.staged == ExportedCache(l.output)
    ensures Within(l.output, l.scratch) && l.output != l.scratch
    ensures Within(l.stamp, l.scratch) && l.stamp != l.scratch
    ensures Within(l.dancefile, l.scratch) && l.dancefile != l.scratch
    ensures Within(l.staged, l.output) && l.staged != l.output && Within(l.staged, l.scratch)
  {
    var id := JobId.CreateJobId(job.source, job.env.unique);
    var scratch := Join(setup.scratchDir, id);
    var output := Join(scratch, "output");
    var staged := Join(output, "cache");
    JoinWithin(setup.scratchDir, id);
    JoinWithin(scratch, "output");
    JoinWithin(scratch, Dancefile.Buildstamp);
    JoinWithin(scratch, "Dancefile.extract");
    JoinWithin(output, "cache");
    WithinTrans(staged, output, scratch);
    StagedIsExported(output);
    Layout(id, scratch, output, Join(scratch, Dancefile.Buildstamp), Join(scratch, "Dancefile.extract"), staged)
  }

  /** `<output>/cache` is where the definition's `/cache` lands. */
  lemma StagedIsExported(output: Path)
    ensures Join(output, "cache") == ExportedCache(output)
  {
    assert Dancefile.ExportDir == "/" + "cache";
  }

  /** How the paths of a layout nest: output, buildstamp and definition
      strictly below the scratch directory, the exported cache strictly
      below the output directory. */
  predicate WellFormed(l: Layout) {
    && |l.scratch| >= 3
    && Within(l.output, l.scratch) && l.output != l.scratch
    && Within(l.stamp, l.scratch) && l.stamp != l.scratch
    && Within(l.dancefile, l.scratch) && l.dancefile != l.scratch
    && l.staged == ExportedCache(l.output)
    && Within(l.staged, l.output) && l.staged != l.output && Within(l.staged, l.scratch)
  }

  function Definition(setup: Setup, job: Job): string {
    Dancefile.ExtractDancefile(setup.image, job.options.mountArgs, job.options.targetPath)
  }

  /** `docker buildx build --builder <b> -f <definition> --output
      type=local,dest=<output> <scratch>`. */
  function BuildCommand(builder: string, l: Layout): Run.Command {
    Run.Command("docker", ["buildx", "build", "--builder", builder, "-f", l.dancefile,
                           "--output", "type=local,dest=" + l.output, l.scratch])
  }

  /** Reset the scratch directory, write the buildstamp and the definition
      (echoed to the console), and reset the output directory. */
  function Prepare(l: Layout, stamp: string, content: string): seq<Action> {
    [ Action(Step(ResetScratch, Delete(l.scratch)), Propagate, []),
      Action(Step(CreateScratch, CreateDirs(l.scratch)), Propagate, []),
      Action(Step(WriteStamp, Write(l.stamp, stamp)), Propagate, []),
      Action(Step(WriteDefinition, Write(l.dancefile, content)), Propagate, [Logger.Printed(content)]),
      Action(Step(ResetOutput, Delete(l.output)), Propagate, []),
      Action(Step(CreateOutput, CreateDirs(l.output)), Propagate, []) ]
  }

  /** The build, exporting into the output directory. */
  function BuildAction(l: Layout, builder: string): Action {
    Action(Step(Build, BuildImage(BuildCommand(builder, l), Some(l.output))), Propagate, [])
  }

  /** Create the parent of the cache source, remove the cache source with
      `sudo rm -rf`, rename the exported cache into its place (an empty
      directory instead when there is nothing to rename), and remove the
      scratch directory. */
  function Relocation(l: Layout, source: Path): seq<Action> {
    [ Action(Step(CreateParent, CreateDirs(Dirname(source))), Propagate, []),
      Action(Step(RemoveDestination, PrivilegedDelete(Run.Command("sudo", ["rm", "-rf", source]), source)), Propagate, []),
      Action(Step(Relocate, Rename(l.staged, source)), OnCode("ENOENT", Step(CreateEmptyDestination, CreateDirs(source))), []),
      Action(Step(RemoveScratch, Delete(l.scratch)), Propagate, []) ]
  }

  /** The calls of one job over its layout. */
  function Plan(l: Layout, builder: string, source: Path, stamp: string, content: string): seq<Action> {
    Prepare(l, stamp, content) + [BuildAction(l, builder)] + Relocation(l, source)
  }

  function Actions(setup: Setup, job: Job): seq<Action> {
    Plan(Paths(setup, job), setup.builder, job.source, job.env.stamp, Definition(setup, job))
  }

  /** `extractCache` for one entry of the cache map. */
  function ExtractCache(fs: Fs, setup: Setup, job: Job): Progress {
    RunActions(Start(fs, []), job.env.oracle, Actions(setup, job))
  }

  lemma PrepareAscending(l: Layout, stamp: string, content: string)
    ensures Ascending(Prepare(l, stamp, content))
  {
  }

  lemma RelocationAscending(l: Layout, source: Path)
    ensures Ascending(Relocation(l, source))
  {
  }

  lemma PlanAscending(l: Layout, builder: string, source: Path, stamp: string, content: string)
    ensures Ascending(Plan(l, builder, source, stamp, content))
  {
    PrepareAscending(l, stamp, content);
    RelocationAscending(l, source);
    AscendingAppend(Prepare(l, stamp, content), [BuildAction(l, builder)]);
    AscendingAppend(Prepare(l, stamp, content) + [BuildAction(l, builder)], Relocation(l, source));
  }

  /** The extract job makes its calls in the canonical order: reset and
      fill the scratch directory, build, then relocate and clean up. */
  lemma ExtractInOrder(fs: Fs, setup: Setup, job: Job)
    ensures InOrder(ExtractCache(fs, setup, job).trace)
  {
    PlanAscending(Paths(setup, job), setup.builder, job.source, job.env.stamp, Definition(setup, job));
    JobInOrder(fs, [], job.env.oracle, Actions(setup, job));
  }

  // ---------------------------------------------------------------------
  // Effects, phase by phase

  /** Nothing lies strictly below `p`. */
  ghost predicate Bare(fs: Fs, p: Path) {
    forall q :: q in fs && Within(q, p) ==> q == p
  }

  /** Resetting and creating a directory leaves it an empty directory. */
  lemma ResetEffect(p: Progress, o: Oracle, a0: Action, a1: Action, d: Path)
    requires a0.recovery.Propagate? && a0.step.op == Delete(d)
    requires a1.recovery.Propagate? && a1.step.op == CreateDirs(d)
    requires a0.logs == [] && a1.logs == []
    ensures var r := Perform(Perform(p, o, a0), o, a1);
      r.outcome.Pass? ==>
        && d in r.fs && r.fs[d] == Dir && Bare(r.fs, d)
        && r.log == p.log
        && forall q :: !Within(q, d) ==> Lookup(r.fs, q) == Lookup(p.fs, q)
  {
    var q1 := Perform(p, o, a0);
    var q2 := Perform(q1, o, a1);
    if q2.outcome.Pass? {
      PerformPassed(q1, o, a1);
      PerformPassed(p, o, a0);
      assert q1.fs == Remove(p.fs, d);
      forall q | q in q2.fs && q != d ensures q in q1.fs {
        assert Lookup(q2.fs, q) == Lookup(q1.fs, q);
      }
    }
  }

  /** Writing two files below a directory leaves the directory as it is. */
  lemma WritesEffect(p: Progress, o: Oracle, a0: Action, a1: Action, d: Path)
    requires a0.recovery.Propagate? && a0.step.op.Write? && a0.step.op.path != d
    requires a1.recovery.Propagate? && a1.step.op.Write? && a1.step.op.path != d
    requires a0.logs == []
    ensures var r := Perform(Perform(p, o, a0), o, a1);
      r.outcome.Pass? ==> Lookup(r.fs, d) == Lookup(p.fs, d) && r.log == p.log + a1.logs
  {
    var q1 := Perform(p, o, a0);
    var q2 := Perform(q1, o, a1);
    if q2.outcome.Pass? {
      PerformPassed(q1, o, a1);
      PerformPassed(p, o, a0);
    }
  }

  /** After a successful preparation the scratch and output directories
      exist and the output directory is empty; the definition has been
      echoed. */
  lemma PrepareEffect(p: Progress, o: Oracle, l: Layout, stamp: string, content: string)
    requires WellFormed(l)
    ensures var r := RunActions(p, o, Prepare(l, stamp, content));
      r.outcome.Pass? ==>
        && l.scratch in r.fs && r.fs[l.scratch] == Dir
        && l.output in r.fs && r.fs[l.output] == Dir && Bare(r.fs, l.output)
        && r.log == p.log + [Logger.Printed(content)]
  {
    PreparedBy(p, o, Prepare(l, stamp, content), l, stamp, content);
  }

  /** The same for any six calls of the preparation's kinds. */
  lemma PreparedBy(p: Progress, o: Oracle, acts: seq<Action>, l: Layout, stamp: string, content: string)
    requires WellFormed(l)
    requires |acts| == 6 && forall k :: 0 <= k < 6 ==> acts[k].recovery.Propagate?
    requires acts[0].step.op == Delete(l.scratch) && acts[1].step.op == CreateDirs(l.scratch)
    requires acts[2].step.op == Write(l.stamp, stamp) && acts[3].step.op == Write(l.dancefile, content)
    requires acts[4].step.op == Delete(l.output) && acts[5].step.op == CreateDirs(l.output)
    requires acts[0].logs == [] && acts[1].logs == [] && acts[2].logs == []
    requires acts[3].logs == [Logger.Printed(content)] && acts[4].logs == [] && acts[5].logs == []
    ensures var r := RunActions(p, o, acts);
      r.outcome.Pass? ==>
        && l.scratch in r.fs && r.fs[l.scratch] == Dir
        && l.output in r.fs && r.fs[l.output] == Dir && Bare(r.fs, l.output)
        && r.log == p.log + [Logger.Printed(content)]
  {
    var q1 := Perform(p, o, acts[0]);
    var q2 := Perform(q1, o, acts[1]);
    var q3 := Perform(q2, o, acts[2]);
    var q4 := Perform(q3, o, acts[3]);
    var q5 := Perform(q4, o, acts[4]);
    var q6 := Perform(q5, o, acts[5]);
    RunCons(p, o, acts);
    RunCons(q1, o, acts[1..]);
    RunCons(q2, o, acts[2..]);
    RunCons(q3, o, acts[3..]);
    RunCons(q4, o, acts[4..]);
    RunCons(q5, o, acts[5..]);
    assert RunActions(p, o, acts) == q6;
    ResetEffect(p, o, acts[0], acts[1], l.scratch);
    WritesEffect(q2, o, acts[2], acts[3], l.scratch);
    ResetEffect(q4, o, acts[4], acts[5], l.output);
    if q6.outcome.Pass? {
      assert q4.outcome.Pass? && q2.outcome.Pass?;
      assert !Within(l.scratch, l.output);
    }
  }

  /** Nothing lies at or below a path strictly below a bare one. */
  lemma BareBelow(fs: Fs, p: Path, c: Path)
    requires p in fs && Bare(fs, p) && Within(c, p) && c != p
    ensures Absent(fs, c)
  {
    forall q | q in fs ensures !Within(q, c) {
      if Within(q, c) { WithinTrans(q, c, p); }
    }
  }

  /** A successful build leaves the exported tree at the exported cache
      path when there is one, and nothing there otherwise. */
  lemma BuildEffect(p: Progress, o: Oracle, l: Layout, builder: string)
    requires WellFormed(l) && p.outcome.Pass? && l.output in p.fs && Bare(p.fs, l.output)
    ensures var r := Perform(p, o, BuildAction(l, builder));
      && (r.outcome.Pass? <==> Build !in o.faults)
      && (r.outcome.Fail? ==> r.outcome == Fail(o.faults[Build]))
      && r.log == p.log
      && (r.outcome.Pass? ==> Exported(r.fs, l, o.staged))
  {
    var a := BuildAction(l, builder);
    BareBelow(p.fs, l.output, l.staged);
    if Build !in o.faults {
      if o.staged.Some? {
        BuildGrafts(p, o, l, builder);
      } else {
        assert Perform(p, o, a).fs == p.fs;
      }
    }
  }

  lemma BuildGrafts(p: Progress, o: Oracle, l: Layout, builder: string)
    requires WellFormed(l) && p.outcome.Pass? && Absent(p.fs, l.staged)
    requires Build !in o.faults && o.staged.Some?
    ensures Exported(Perform(p, o, BuildAction(l, builder)).fs, l, o.staged)
  {
    BuildOutput(p, o, l, builder);
    SubtreeOfGraft(p.fs, l.staged, o.staged.value);
  }

  lemma BuildOutput(p: Progress, o: Oracle, l: Layout, builder: string)
    requires WellFormed(l) && p.outcome.Pass? && Build !in o.faults && o.staged.Some?
    ensures Perform(p, o, BuildAction(l, builder)).fs == Graft(p.fs, l.staged, o.staged.value)
  {
    var a := BuildAction(l, builder);
    StagedIsExported(l.output);
    AttemptExport(p.fs, o, a.step, BuildCommand(builder, l), l.output);
    PerformOk(p, o, a);
  }

  /** What the exported cache path holds before relocation. */
  ghost predicate Exported(fs: Fs, l: Layout, staged: Option<Tree>) {
    && (staged.Some? ==> l.staged in fs && Subtree(fs, l.staged) == staged.value)
    && (staged.None? ==> Absent(fs, l.staged))
  }

  /** Creating the parent and removing the cache source leave the exported
      cache path alone, and the cache source absent. */
  lemma ClearEffect(p: Progress, o: Oracle, l: Layout, source: Path)
    requires WellFormed(l) && Separate(source, l.scratch) && p.outcome.Pass? && Exported(p.fs, l, o.staged)
    ensures var acts := Relocation(l, source);
      var r := Perform(Perform(p, o, acts[0]), o, acts[1]);
      r.outcome.Pass? ==> Exported(r.fs, l, o.staged) && Absent(r.fs, source) && r.log == p.log
  {
    var acts := Relocation(l, source);
    var q1 := Perform(p, o, acts[0]);
    var q2 := Perform(q1, o, acts[1]);
    if q2.outcome.Pass? {
      assert q1.outcome.Pass?;
      DirnameOutside(source, l.scratch);
      SeparateBelow(l.staged, l.scratch, source);
      assert SameWithin(q2.fs, p.fs, l.staged) by {
        forall q | Within(q, l.staged) ensures Lookup(q2.fs, q) == Lookup(p.fs, q) {
          SeparateDisjoint(q, l.staged, source);
          if q == Dirname(source) { WithinTrans(q, l.staged, l.scratch); }
        }
      }
      if o.staged.Some? {
        SubtreeAgrees(p.fs, q2.fs, l.staged);
      } else {
        AbsentAgrees(p.fs, q2.fs, l.staged);
      }
    }
  }

  /** The rename, or the empty directory in its stead, puts the exported
      tree, or an empty one, at the cache source. */
  lemma RenameEffect(p: Progress, o: Oracle, l: Layout, source: Path)
    requires WellFormed(l) && Separate(source, l.scratch) && p.outcome.Pass?
    requires Exported(p.fs, l, o.staged) && Absent(p.fs, source)
    ensures var r := Perform(p, o, Relocation(l, source)[2]);
      r.outcome.Pass? ==>
        && source in r.fs
        && Subtree(r.fs, source) == (if o.staged.Some? && Relocate !in o.faults then o.staged.value else EmptyDir)
        && r.log == p.log
  {
    RenamedBy(p, o, Relocation(l, source)[2], l, source);
  }

  /** The same for any rename of the exported cache to the cache source
      that falls back to creating it on `ENOENT`. */
  lemma RenamedBy(p: Progress, o: Oracle, a: Action, l: Layout, source: Path)
    requires WellFormed(l) && Separate(source, l.scratch) && p.outcome.Pass?
    requires Exported(p.fs, l, o.staged) && Absent(p.fs, source)
    requires a == Action(Step(Relocate, Rename(l.staged, source)), OnCode("ENOENT", Step(CreateEmptyDestination, CreateDirs(source))), [])
    ensures var r := Perform(p, o, a);
      r.outcome.Pass? ==>
        && source in r.fs
        && Subtree(r.fs, source) == (if o.staged.Some? && Relocate !in o.faults then o.staged.value else EmptyDir)
        && r.log == p.log
  {
    var q3 := Perform(p, o, a);
    if q3.outcome.Pass? {
      SeparateBelow(l.staged, l.scratch, source);
      if o.staged.Some? && Relocate !in o.faults {
        RenameMoves(p, o, a, l, source);
      } else {
        RenameFallsBack(p, o, a, l, source);
        FreshDirSubtree(p.fs, source);
      }
    }
  }

  /** With a staged cache and no fault, the rename goes through. */
  lemma RenameMoves(p: Progress, o: Oracle, a: Action, l: Layout, source: Path)
    requires p.outcome.Pass? && l.staged in p.fs && Relocate !in o.faults && Separate(l.staged, source)
    requires a.step == Step(Relocate, Rename(l.staged, source)) && a.logs == []
    ensures var r := Perform(p, o, a);
      r.outcome.Pass? && source in r.fs && Subtree(r.fs, source) == Subtree(p.fs, l.staged) && r.log == p.log
  {
    AttemptRename(p.fs, o, a.step, l.staged, source);
    MoveRelocates(p.fs, l.staged, source);
    PerformOk(p, o, a);
  }

  /** Otherwise a passing rename step is the fallback's `mkdir`. */
  lemma RenameFallsBack(p: Progress, o: Oracle, a: Action, l: Layout, source: Path)
    requires p.outcome.Pass? && Exported(p.fs, l, o.staged) && !(o.staged.Some? && Relocate !in o.faults)
    requires a == Action(Step(Relocate, Rename(l.staged, source)), OnCode("ENOENT", Step(CreateEmptyDestination, CreateDirs(source))), [])
    ensures var r := Perform(p, o, a);
      r.outcome.Pass? ==> MakeDirs(p.fs, source).Ok? && r.fs == MakeDirs(p.fs, source).value && r.log == p.log
  {
    if Relocate !in o.faults {
      assert Within(l.staged, l.staged);
      assert l.staged !in p.fs;
      assert Attempt(p.fs, o, a.step) == Move(p.fs, l.staged, source);
    }
    assert Attempt(p.fs, o, a.step).Err?;
  }

  /** Removing the scratch directory leaves the cache source as it is. */
  lemma ScratchRemovalEffect(p: Progress, o: Oracle, l: Layout, source: Path)
    requires Separate(source, l.scratch) && p.outcome.Pass? && source in p.fs
    ensures var r := Perform(p, o, Relocation(l, source)[3]);
      r.outcome.Pass? ==>
        && source in r.fs && Subtree(r.fs, source) == Subtree(p.fs, source)
        && Absent(r.fs, l.scratch) && r.log == p.log
  {
    var q4 := Perform(p, o, Relocation(l, source)[3]);
    if q4.outcome.Pass? {
      assert q4.fs == Remove(p.fs, l.scratch);
      forall q | Within(q, source) ensures Lookup(q4.fs, q) == Lookup(p.fs, q) {
        SeparateDisjoint(q, source, l.scratch);
      }
      SubtreeAgrees(p.fs, q4.fs, source);
    }
  }

  /** The rename, or the empty directory in its stead, followed by the
      removal of the scratch directory. */
  lemma PlaceEffect(p: Progress, o: Oracle, l: Layout, source: Path)
    requires WellFormed(l) && Separate(source, l.scratch) && p.outcome.Pass?
    requires Exported(p.fs, l, o.staged) && Absent(p.fs, source)
    ensures var acts := Relocation(l, source);
      var r := Perform(Perform(p, o, acts[2]), o, acts[3]);
      r.outcome.Pass? ==>
        && source in r.fs
        && Subtree(r.fs, source) == (if o.staged.Some? && Relocate !in o.faults then o.staged.value else EmptyDir)
        && Absent(r.fs, l.scratch)
        && r.log == p.log
  {
    var acts := Relocation(l, source);
    var q3 := Perform(p, o, acts[2]);
    if Perform(q3, o, acts[3]).outcome.Pass? {
      assert q3.outcome.Pass?;
      RenameEffect(p, o, l, source);
      ScratchRemovalEffect(q3, o, l, source);
    }
  }

  /** The relocation phase as a whole. */
  lemma RelocationEffect(p: Progress, o: Oracle, l: Layout, source: Path)
    requires WellFormed(l) && Separate(source, l.scratch) && p.outcome.Pass? && Exported(p.fs, l, o.staged)
    ensures var r := RunActions(p, o, Relocation(l, source));
      r.outcome.Pass? ==>
        && source in r.fs
        && Subtree(r.fs, source) == (if o.staged.Some? && Relocate !in o.faults then o.staged.value else EmptyDir)
        && Absent(r.fs, l.scratch)
        && r.log == p.log
  {
    var rel := Relocation(l, source);
    var q1 := Perform(p, o, rel[0]);
    var q2 := Perform(q1, o, rel[1]);
    var q3 := Perform(q2, o, rel[2]);
    var q4 := Perform(q3, o, rel[3]);
    RunCons(p, o, rel);
    RunCons(q1, o, rel[1..]);
    RunCons(q2, o, rel[2..]);
    RunCons(q3, o, rel[3..]);
    assert RunActions(p, o, rel) == q4;
    if q4.outcome.Pass? {
      ClearEffect(p, o, l, source);
      PlaceEffect(q2, o, l, source);
    }
  }

  // ---------------------------------------------------------------------
  // The whole job

  /** Where the extract job may write: its scratch directory, the cache
      source, and the parent directory of the cache source. */
  function ExtractFootprint(l: Layout, source: Path): Footprint {
    Footprint({l.scratch, source}, {Dirname(source)})
  }

  lemma PlanWithin(l: Layout, builder: string, source: Path, stamp: string, content: string)
    requires WellFormed(l)
    ensures var plan := Plan(l, builder, source, stamp, content);
      forall k :: 0 <= k < |plan| ==> ActionWithin(plan[k], ExtractFootprint(l, source))
    ensures var prefix := Prepare(l, stamp, content) + [BuildAction(l, builder)];
      forall k :: 0 <= k < |prefix| ==> ActionWithin(prefix[k], Footprint({l.scratch}, {}))
  {
    var f := ExtractFootprint(l, source);
    var g := Footprint({l.scratch}, {});
    assert l.scratch in f.trees && source in f.trees && l.scratch in g.trees;
    assert Covered(l.scratch, f) && Covered(l.stamp, f) && Covered(l.dancefile, f) && Covered(l.output, f);
    assert Covered(l.staged, f) && Covered(source, f);
    assert Covered(l.scratch, g) && Covered(l.stamp, g) && Covered(l.dancefile, g) && Covered(l.output, g);
  }

  /** Running the whole job is running its three phases one after the
      other. */
  lemma ExtractPhases(fs: Fs, setup: Setup, job: Job)
    ensures var l := Paths(setup, job);
      var o := job.env.oracle;
      var p1 := RunActions(Start(fs, []), o, Prepare(l, job.env.stamp, Definition(setup, job)));
      ExtractCache(fs, setup, job) == RunActions(Perform(p1, o, BuildAction(l, setup.builder)), o, Relocation(l, job.source))
  {
    var l := Paths(setup, job);
    var o := job.env.oracle;
    var prep := Prepare(l, job.env.stamp, Definition(setup, job));
    var b := BuildAction(l, setup.builder);
    RunActionsAppend(Start(fs, []), o, prep + [b], Relocation(l, job.source));
    RunActionsAppend(Start(fs, []), o, prep, [b]);
    RunSingle(RunActions(Start(fs, []), o, prep), o, b);
  }

  /** A successful extraction leaves at the cache source the tree the build
      exported, or an empty directory when the build exported nothing or
      the rename found nothing to move; the scratch directory is gone, and
      the definition is all that was printed. */
  lemma ExtractSucceeded(fs: Fs, setup: Setup, job: Job)
    requires Separate(job.source, Paths(setup, job).scratch)
    ensures var r := ExtractCache(fs, setup, job);
      var o := job.env.oracle;
      r.outcome.Pass? ==>
        && job.source in r.fs
        && Subtree(r.fs, job.source) == (if o.staged.Some? && Relocate !in o.faults then o.staged.value else EmptyDir)
        && Absent(r.fs, Paths(setup, job).scratch)
        && r.log == [Logger.Printed(Definition(setup, job))]
  {
    ExtractPhases(fs, setup, job);
    PhasesSucceeded(Start(fs, []), job.env.oracle, Paths(setup, job), setup.builder, job.source,
                    job.env.stamp, Definition(setup, job));
  }

  /** The same over any layout. */
  lemma PhasesSucceeded(p: Progress, o: Oracle, l: Layout, builder: string, source: Path, stamp: string, content: string)
    requires WellFormed(l) && Separate(source, l.scratch) && p.log == []
    ensures var p1 := RunActions(p, o, Prepare(l, stamp, content));
      var r := RunActions(Perform(p1, o, BuildAction(l, builder)), o, Relocation(l, source));
      r.outcome.Pass? ==>
        && source in r.fs
        && Subtree(r.fs, source) == (if o.staged.Some? && Relocate !in o.faults then o.staged.value else EmptyDir)
        && Absent(r.fs, l.scratch)
        && r.log == [Logger.Printed(content)]
  {
    assert p.log + [Logger.Printed(content)] == [Logger.Printed(content)];
    var p1 := RunActions(p, o, Prepare(l, stamp, content));
    var p2 := Perform(p1, o, BuildAction(l, builder));
    var r := RunActions(p2, o, Relocation(l, source));
    if r.outcome.Pass? {
      PrepareEffect(p, o, l, stamp, content);
      BuildEffect(p1, o, l, builder);
      RelocationEffect(p2, o, l, source);
    }
  }

  lemma PrepareBeforeBuild(l: Layout, stamp: string, content: string)
    ensures var prep := Prepare(l, stamp, content);
      forall k, x :: 0 <= k < |prep| && x in Steps(prep[k]) ==> Rank(x.stage) < Rank(Build)
  {
  }

  /** Preparation and the build write only within the scratch directory. */
  lemma PrefixWithin(p: Progress, o: Oracle, l: Layout, builder: string, stamp: string, content: string)
    requires WellFormed(l)
    ensures var prep := Prepare(l, stamp, content);
      Untouched(Perform(RunActions(p, o, prep), o, BuildAction(l, builder)).fs, p.fs, Footprint({l.scratch}, {}))
  {
    var prep := Prepare(l, stamp, content);
    var b := BuildAction(l, builder);
    PlanWithin(l, builder, "", stamp, content);
    RunActionsAppend(p, o, prep, [b]);
    RunSingle(RunActions(p, o, prep), o, b);
    RunActionsWithin(p, o, prep + [b], Footprint({l.scratch}, {}));
  }

  /** A failing build fails the job with the build's error, after which
      nothing is called: the cache source is neither removed nor replaced,
      and nothing outside the scratch directory has changed. */
  lemma ExtractBuildFailure(fs: Fs, setup: Setup, job: Job)
    requires Build in job.env.oracle.faults
    ensures var r := ExtractCache(fs, setup, job);
      && r.outcome.Fail?
      && (forall i :: 0 <= i < |r.trace| ==> Rank(r.trace[i].stage) <= Rank(Build))
      && (forall i :: 0 <= i < |r.trace| && r.trace[i].stage == Build ==> r.outcome == Fail(job.env.oracle.faults[Build]))
      && Untouched(r.fs, fs, Footprint({Paths(setup, job).scratch}, {}))
  {
    PlanBuildFailure(Start(fs, []), job.env.oracle, Paths(setup, job), setup.builder, job.source,
                     job.env.stamp, Definition(setup, job));
  }

  /** The same over any layout: a failing build ends the plan. */
  lemma PlanBuildFailure(p: Progress, o: Oracle, l: Layout, builder: string, source: Path, stamp: string, content: string)
    requires p.trace == [] && WellFormed(l) && Build in o.faults
    ensures var r := RunActions(p, o, Plan(l, builder, source, stamp, content));
      && r.outcome.Fail?
      && (forall i :: 0 <= i < |r.trace| ==> Rank(r.trace[i].stage) <= Rank(Build))
      && (forall i :: 0 <= i < |r.trace| && r.trace[i].stage == Build ==> r.outcome == Fail(o.faults[Build]))
      && Untouched(r.fs, p.fs, Footprint({l.scratch}, {}))
  {
    var prep := Prepare(l, stamp, content);
    var b := BuildAction(l, builder);
    RunActionsAppend(p, o, prep + [b], Relocation(l, source));
    RunActionsAppend(p, o, prep, [b]);
    RunSingle(RunActions(p, o, prep), o, b);
    PrepareBeforeBuild(l, stamp, content);
    FailedCallTrace(p, o, prep, b);
    PrefixWithin(p, o, l, builder, stamp, content);
  }

  /** Whatever fails, the job changes nothing outside its scratch
      directory, the cache source and the parent directory it creates. */
  lemma ExtractStaysWithin(fs: Fs, setup: Setup, job: Job)
    ensures Untouched(ExtractCache(fs, setup, job).fs, fs, ExtractFootprint(Paths(setup, job), job.source))
  {
    var l := Paths(setup, job);
    PlanWithin(l, setup.builder, job.source, job.env.stamp, Definition(setup, job));
    RunActionsWithin(Start(fs, []), job.env.oracle, Actions(setup, job), ExtractFootprint(l, job.source));
  }

  /** The calls before the rename. */
  function BeforeRename(l: Layout, builder: string, source: Path, stamp: string, content: string): seq<Action> {
    Prepare(l, stamp, content) + [BuildAction(l, builder)] + Relocation(l, source)[..2]
  }

  lemma BeforeRenameRanks(l: Layout, builder: string, source: Path, stamp: string, content: string)
    ensures var front := BeforeRename(l, builder, source, stamp, content);
      forall k, x :: 0 <= k < |front| && x in Steps(front[k]) ==> Rank(x.stage) < Rank(Relocate)
  {
    var prep := Prepare(l, stamp, content);
    var front := BeforeRename(l, builder, source, stamp, content);
    PrepareBeforeBuild(l, stamp, content);
    forall k, x | 0 <= k < |front| && x in Steps(front[k]) ensures Rank(x.stage) < Rank(Relocate) {
      if k < |prep| {
        assert front[k] == prep[k];
      }
    }
  }

  /** The plan is the calls before the rename, the rename, and the removal
      of the scratch directory. */
  lemma PlanAroundRename(l: Layout, builder: string, source: Path, stamp: string, content: string)
    ensures var rel := Relocation(l, source);
      Plan(l, builder, source, stamp, content) == BeforeRename(l, builder, source, stamp, content) + [rel[2]] + [rel[3]]
  {
    var rel := Relocation(l, source);
    assert rel == rel[..2] + [rel[2]] + [rel[3]];
  }

  /** Calls before a failing one, the failing one, and one more: the
      last is never made. */
  lemma FailingSecondToLast(p: Progress, o: Oracle, front: seq<Action>, b: Action, c: Action)
    requires p.trace == [] && FailsWhenReached(o, b)
    requires forall k, x :: 0 <= k < |front| && x in Steps(front[k]) ==> Rank(x.stage) < Rank(b.step.stage)
    ensures var r := RunActions(p, o, front + [b] + [c]);
      var s := b.step.stage;
      && r.outcome.Fail?
      && (forall i :: 0 <= i < |r.trace| ==> Rank(r.trace[i].stage) <= Rank(s))
      && (forall i :: 0 <= i < |r.trace| && r.trace[i].stage == s ==> r.outcome == Fail(o.faults[s]))
  {
    RunActionsAppend(p, o, front + [b], [c]);
    RunActionsAppend(p, o, front, [b]);
    RunSingle(RunActions(p, o, front), o, b);
    FailedCallTrace(p, o, front, b);
  }

  lemma PlanRenameFailure(p: Progress, o: Oracle, l: Layout, builder: string, source: Path, stamp: string, content: string)
    requires p.trace == [] && Relocate in o.faults && o.faults[Relocate].code != "ENOENT"
    ensures var r := RunActions(p, o, Plan(l, builder, source, stamp, content));
      && r.outcome.Fail?
      && (forall i :: 0 <= i < |r.trace| ==> Rank(r.trace[i].stage) <= Rank(Relocate))
      && (forall i :: 0 <= i < |r.trace| && r.trace[i].stage == Relocate ==> r.outcome == Fail(o.faults[Relocate]))
  {
    var rel := Relocation(l, source);
    PlanAroundRename(l, builder, source, stamp, content);
    BeforeRenameRanks(l, builder, source, stamp, content);
    assert rel[2].step.stage == Relocate && rel[2].recovery == OnCode("ENOENT", Step(CreateEmptyDestination, CreateDirs(source)));
    FailingSecondToLast(p, o, BeforeRename(l, builder, source, stamp, content), rel[2], rel[3]);
  }

  /** A rename that fails with any code but ENOENT fails the job with that
      error when it is reached, and nothing is called after it: the
      scratch directory is left behind. */
  lemma ExtractRenameFailure(fs: Fs, setup: Setup, job: Job)
    requires Relocate in job.env.oracle.faults && job.env.oracle.faults[Relocate].code != "ENOENT"
    ensures var r := ExtractCache(fs, setup, job);
      && r.outcome.Fail?
      && (forall i :: 0 <= i < |r.trace| ==> Rank(r.trace[i].stage) <= Rank(Relocate))
      && (forall i :: 0 <= i < |r.trace| && r.trace[i].stage == Relocate ==> r.outcome == Fail(job.env.oracle.faults[Relocate]))
  {
    PlanRenameFailure(Start(fs, []), job.env.oracle, Paths(setup, job), setup.builder, job.source, job.env.stamp, Definition(setup, job));
  }

  // ---------------------------------------------------------------------
  // All caches

  const SkipNotice := "skip-extraction is set. Skipping extraction step..."

  /** Every job of the cache map, in map order. */
  function ExtractAll(fs: Fs, setup: Setup, jobs: seq<Job>): seq<Progress> {
    RunJobs(fs, jobs, (f, j) => ExtractCache(f, setup, j))
  }

  /** `extractCaches`: with `skip-extraction` set, only the notice and no
      job, whatever the cache map; a cache map that cannot be read fails the
      run before any job; otherwise every job runs and the run fails with the
      first failing job's error. */
  function ExtractCaches(fs: Fs, skip: bool, cacheMap: Result<seq<Job>>, setup: Setup): (r: Batch)
    ensures skip ==> r == Batch(fs, Pass, [Logger.Printed(SkipNotice)], [])
    ensures !skip && cacheMap.Err? ==> r == Batch(fs, Fail(cacheMap.error), [], [])
    ensures !skip && cacheMap.Ok? ==>
      && |r.runs| == |cacheMap.value|
      && (forall k :: 0 <= k < |r.runs| ==>
            r.runs[k] == ExtractCache(if k == 0 then fs else r.runs[k - 1].fs, setup, cacheMap.value[k]))
      && (r.outcome.Pass? <==> AllPassed(r.runs))
      && (r.outcome.Fail? ==> FirstFailure(r.runs, r.outcome))
      && r.fs == Final(fs, r.runs) && r.log == Logs(r.runs)
  {
    if skip then Batch(fs, Pass, [Logger.Printed(SkipNotice)], [])
    else match cacheMap
      case Err(e) => Batch(fs, Fail(e), [], [])
      case Ok(jobs) =>
        var runs := ExtractAll(fs, setup, jobs);
        Batch(Final(fs, runs), AwaitAll(runs), Logs(runs), runs)
  }
}
