# buildkit-cache-dance, modelled in Dafny

buildkit-cache-dance moves the contents of BuildKit cache mounts in and out of
a GitHub Actions runner. Cache mounts live inside the builder and cannot be
read directly. So the action builds a small throwaway image from a generated
build definition (the "Dancefile"):

- **inject** (before the workflow): the build copies a directory of the runner
  into the cache mount.
- **extract** (after the workflow): the build copies the cache mount out into a
  directory of the runner, which then replaces the cache source directory.

This project models the core of both directions:

- the job identity derived from a cache source path;
- the two build definitions, character for character;
- each job as an ordered list of awaited calls over an abstract filesystem;
- the aggregation over all entries of the cache map;
- the process helpers of `src/run.ts`;
- the logging facade of `src/logger.ts`.

The filesystem is a map from path strings to nodes, and directories are
implicit: a path lies in a directory when it starts with the directory's path
and `/`, whether or not the directory itself is recorded. So `fs.mkdir` with
`recursive` records only the directory it is given, not its missing
ancestors, and a path with entries below it counts as a directory.

What the environment decides is an input:

- Which call fails, and with which error, is an oracle (a map from the
  call's stage to an `Error`).
- The tree the extract build exports is part of the oracle.
- The random job suffix and the timestamp are parameters.
- The events a child process emits are a sequence.
- The logger's runtime is a value: whether the Actions toolkit is present,
  which toolkit calls throw, the debug mode, and the group name.

## Modules

| file | module | what it holds |
|---|---|---|
| wrappers.dfy | `Wrappers` | `Option`, `Error` (`code`, `message`, `stack`), `Outcome`, `Result`, and how a template literal prints an `Error` |
| text.dfy | `Text` | `trim`, `join`, `split` and decimal rendering with JavaScript's meaning |
| logger.dfy | `Logger` | `callCore`, `formatMessageForConsole`, `logError`, `logVerbose`, `configureLogger` |
| run.dfy | `Run` | `formatCommand`, `run`, `runWithInput`, `assertSuccess`, `runPiped` |
| job_id.dfy | `JobId` | `createJobId` as its five string rewrites plus the suffix |
| dancefile.dfy | `Dancefile` | both build definitions as instructions, and their rendering |
| filesystem.dfy | `FileSystem` | paths, the flat path-to-node map, `fs.rm`, `fs.mkdir`, `fs.writeFile`, `fs.rename` |
| transfer.dfy | `Transfer` | stages, actions, the oracle, running a job, the canonical order, footprints, running all jobs |
| extract.dfy | `Extract` | `extractCache` and `extractCaches` |
| inject.dfy | `Inject` | `injectCache` and `injectCaches` |

## Model

| member | source | states |
|---|---|---|
| Wrappers.ErrorText | src/inject-cache.ts:71 | `${err}` of an `Error` is `Error: ` followed by its message, or just `Error` when the message is empty |
| Text.Trim | src/run.ts:82 | the result is a slice of the input with only whitespace cut from either end, and it neither starts nor ends with whitespace |
| Text.NatToString | src/inject-cache.ts:87 | the decimal rendering of a count is non-empty, all digits, with no leading zero |
| Text.NatToStringRoundTrip | src/inject-cache.ts:87 | reading the rendered digits back gives the number |
| Text.SplitJoin | src/run.ts:82 | splitting a join at its separator gives back the parts when no part contains the separator |
| JobId.StripLeadingSeparators | src/extract-cache.ts:8 | removes the longest run of `/` and `\` at the front and nothing else |
| JobId.CollapseSeparators | src/extract-cache.ts:9 | the result has no separator, keeps every character that is neither a separator nor a dash in order, never grows, is the input itself when it had no separator, and starts with `-` when the input starts with a separator |
| JobId.CollapseRun | src/extract-cache.ts:9 | a maximal run of separators becomes exactly one `-`: a part without separators, a run of separators and a rest that does not start with one collapse to the part, one `-`, and the collapsed rest |
| JobId.CollapseCopiesPrefix | src/extract-cache.ts:9 | a part without separators is copied unchanged to the front of the result |
| JobId.ReplaceDisallowed | src/extract-cache.ts:10 | each character outside `[a-zA-Z0-9_.-]` becomes `-`, position by position |
| JobId.ToLower | src/extract-cache.ts:11 | ASCII upper-case letters are lowered, position by position |
| JobId.KeepLast | src/extract-cache.ts:12 | `slice(-40)` keeps the last 40 characters, or all of a shorter string |
| JobId.Slug | src/extract-cache.ts:7-12 | the slug uses only `[a-z0-9_.-]` (so no separator) and has at most 40 characters |
| JobId.Stem | src/extract-cache.ts:14 | the part before the suffix is the slug, or `cache` when the slug is empty; never empty |
| JobId.CreateJobId | src/extract-cache.ts:6-15 | the job id is the stem, then `-`, then the suffix |
| JobId.JobIdBounds | src/extract-cache.ts:13-14 | with a suffix of at most 8 characters the id is non-empty and at most 49 characters, and made of `[a-z0-9_.-]` when the suffix is |
| JobId.SlugOfSlug | src/extract-cache.ts:7-12 | a source that already is a slug of at most 40 characters is its own slug |
| JobId.SlugIgnoresLeadingSeparators | src/extract-cache.ts:8-12 | leading separators never change the slug |
| Dancefile.RenderSplitsIntoInstructions | src/extract-cache.ts:34-42 | a rendered definition splits at line breaks into an empty first line, one line per instruction, and an empty remainder |
| Dancefile.ExtractDancefileText | src/extract-cache.ts:34-42 | the extract definition is, line by line: `FROM <image> AS dance-extract`, `COPY buildstamp buildstamp`, the `RUN --mount=<mountArgs>` that copies `<targetPath>/.` into `/var/dance-cache/` tolerating failure, `FROM scratch`, and `COPY --from=dance-extract /var/dance-cache /cache` |
| Dancefile.OwnershipCommand | src/inject-cache.ts:44-49 | the ownership command is empty exactly when both uid and gid are empty, and otherwise is `&& chown -R <uid>:<gid> <targetPath>` |
| Dancefile.InjectDancefileText | src/inject-cache.ts:52-58 | the inject definition is, line by line: `FROM <image>`, `COPY buildstamp buildstamp`, and the `RUN` with the cache mount and the bind mount of `.` at `/var/dance-cache` that copies `/var/dance-cache/.` into `<targetPath>`, then the ownership command, then `\|\| true` |
| Logger.CallCore | src/logger.ts:19-25 | exactly one line: the toolkit line when the toolkit call does not throw, the console fallback when it does |
| Logger.FormatMessageForConsole | src/logger.ts:29-32 | `[<group>] <message>` for a non-empty group name, the message unchanged otherwise |
| Logger.ConsoleFor | src/logger.ts:43-77 | each level falls back to the console method of the same level; info and notice both fall back to `console.log` |
| Logger.LogError | src/logger.ts:64-70 | one error-level line showing the message of an `Error`, or the string itself |
| Logger.ErrorArgText | src/logger.ts:65 | selects `message` of an `Error` and the string itself otherwise |
| Logger.LogVerbose | src/logger.ts:79-100 | nothing when verbose output is off; outside Actions one console debug line; inside, a debug line plus an info line only when the toolkit is not in debug mode; every line shows `[verbose] ` and the message |
| Logger.VerboseLinesCarryPrefix | src/logger.ts:84 | every verbose line ends with `[verbose] ` followed by the message |
| Logger.Emit | src/logger.ts:43-62 | a logged call produces one line showing its message; a printed one goes to `console.log` verbatim |
| Logger.EmitAllAppend | src/logger.ts:43-100 | the lines of consecutive calls are the lines of each call in order |
| Logger.Configure | src/logger.ts:34-41 | `configureLogger` stores the flag, then announces it verbosely when on and as one debug line when off |
| Logger.VerboseIsLastConfigured | src/logger.ts:127-129 | `isVerboseEnabled` answers with the flag of the last `configureLogger` call, and false before the first |
| Run.FormatCommand | src/run.ts:81-83 | the program and arguments joined by single spaces, cut only of surrounding whitespace |
| Run.FormatCommandRoundTrip | src/run.ts:81-83 | for program and arguments that are non-empty words without whitespace, the formatted command splits at spaces back into them |
| Run.PipedDescriptionWords | src/run.ts:22 | the piped description splits at spaces into the first command's words, `\|`, and the second command's words |
| Run.OnEventAsWritten | src/run.ts:60-78 | the first event settles the promise: an `error` rejects with it, a `close` with code 0 resolves and logs only the verbose success line, any other code rejects with `process exited with code <code>`, logs that failure first and then, when verbose output is on, the success line as well |
| Run.OnEvent | src/run.ts:60-78 | the corrected listener of the finding below: it settles as the listener as written does, and a non-zero exit logs only the failure |
| Run.Listen | src/run.ts:60-78 | a promise settles once: the settlement is that of the first event, whatever follows |
| Run.AsWrittenReportsSuccessAfterFailure | src/run.ts:69-77 | as written, a non-zero exit rejects the promise and then also logs `Process exited successfully` |
| Run.FailedExitReportsOnlyFailure | src/run.ts:69-77 | with the missing `return`, a non-zero exit rejects and logs exactly one error line |
| Run.StackLines | src/run.ts:14-16 | an error's stack is logged only when it is non-empty, and never at error level |
| Run.Run | src/run.ts:5-19 | `run` returns the spawn's result or rethrows its error unchanged; an error line naming the command appears exactly when the spawn failed |
| Run.Watch | src/run.ts:42-58 | stdin errors and process events are handled in the order they arrive: the settlement is the verdict on the first process event, whatever stdin errors come before or after it |
| Run.WatchLogsStdinErrors | src/run.ts:42-44 | every stdin error's line is logged, wherever among the events it arrives |
| Run.RunWithInput | src/run.ts:37-58 | `runWithInput`, with the listeners as written, settles with the verdict on the first process event and logs a line for every failure to write the input |
| Run.StdinLine | src/run.ts:42-44 | a failure to write the input is one error line naming the command and the error |
| Run.StdinErrorsDoNotDecide | src/run.ts:42-58 | failures to write the input never change the outcome: `runWithInput` settles as `assertSuccess` does on the process events alone |
| Run.PipedFrom | src/run.ts:29-32 | with the listeners as written, after every event, the combined promise is still what `Promise.all` over the two processes makes of their settlements: resolved when both resolved, rejected with the error of one that was rejected |
| Run.RunPiped | src/run.ts:21-35 | the piped command succeeds exactly when both processes succeed, fails exactly when one of them fails, and a failure carries that process's error |
| FileSystem.Join | src/extract-cache.ts:19-21 | `path.join(dir, name)` is the directory, one `/`, and the name |
| FileSystem.Dirname | src/extract-cache.ts:59 | `path.dirname` gives `.` for a path without `/`, an absolute parent for an absolute path, and otherwise `.`, `/`, `//` or a proper prefix of the path that a `/` follows in it |
| FileSystem.DirnameJoin | src/extract-cache.ts:59 | `path.dirname` undoes joining a name (possibly followed by separators) to a directory: the parent of `d/n` is `d`, except that the parent of `//n` is `//` |
| FileSystem.Remove | src/extract-cache.ts:26 | `fs.rm` with `recursive` and `force` leaves nothing at or below the path and changes nothing else |
| FileSystem.MakeDirs | src/extract-cache.ts:27 | `fs.mkdir` fails exactly when a file is at or above the path (EEXIST when at it); otherwise the path is a directory and nothing else changes |
| FileSystem.WriteFile | src/extract-cache.ts:28 | `fs.writeFile` fails with EISDIR on a directory (recorded, or implied by entries below the path) and fails below a file; otherwise the path holds exactly the data and nothing else changes |
| FileSystem.Move | src/extract-cache.ts:62 | `fs.rename` fails with ENOENT exactly when the source is missing |
| FileSystem.MoveRelocates | src/extract-cache.ts:62 | a rename between separate places moves the whole tree to the destination, leaves nothing at the source, and touches nothing else |
| FileSystem.SubtreeOfGraft | src/extract-cache.ts:53 | a tree placed where nothing was reads back as the same tree |
| Transfer.Perform | src/extract-cache.ts:61-69 | one awaited call: nothing happens once the job has failed; otherwise the call is recorded, followed by its fallback call when one was made; a call that succeeds is recorded; a failure leaves every file as it was |
| Transfer.RunActions | src/extract-cache.ts:26-70 | awaited calls run in order and stop at the first failure; a job that passes made the main call of every action |
| Transfer.RunAgrees | src/inject-cache.ts:67-74 | two oracles that answer every call of a job the same way produce the same run |
| Transfer.PassedLogs | src/inject-cache.ts:26-63 | a passing run of calls without recovery logs each action's messages in order |
| Transfer.AscendingInOrder | src/extract-cache.ts:26-70 | a job whose actions are listed in the canonical order makes its calls in that order |
| Transfer.FailedCallTrace | src/extract-cache.ts:48-70 | a call that fails when reached ends the job with its error exactly when the calls before it succeeded, and nothing is called after it |
| Transfer.RunActionsWithin | src/extract-cache.ts:26-70 | a job whose every call stays within a footprint changes nothing outside it |
| Transfer.Combined | src/extract-cache.ts:85-87 | `Promise.all` succeeds exactly when every job does, and otherwise fails with the first failure in list order |
| Transfer.AwaitAll | src/extract-cache.ts:85-87 | the outcome over a series of jobs passes exactly when every job passed, and otherwise is the outcome of the first that failed |
| Transfer.RunJobs | src/extract-cache.ts:85-87 | every job runs, in map order, each on the filesystem the previous one left |
| Extract.Paths | src/extract-cache.ts:18-21 | the scratch directory is `<scratchDir>/<jobId>`; the output, buildstamp and definition lie strictly below it; the staged cache is `<output>/cache`, which is where the definition's `/cache` lands |
| Extract.ExtractInOrder | src/extract-cache.ts:26-70 | the extract job makes its calls in the order of the source |
| Extract.PrepareEffect | src/extract-cache.ts:26-47 | a successful preparation leaves the scratch directory, and an empty output directory below it, and prints the definition |
| Extract.BuildEffect | src/extract-cache.ts:48-55 | the build passes exactly when the oracle lets it, fails with the oracle's error otherwise, and on success leaves the exported tree at `<output>/cache` (nothing when nothing was exported) |
| Extract.RelocationEffect | src/extract-cache.ts:57-70 | after a successful relocation the cache source holds the exported tree, or an empty directory when there was none or the rename found nothing; the scratch directory is gone |
| Extract.ExtractSucceeded | src/extract-cache.ts:17-71 | a successful job leaves at the cache source the exported tree or an empty directory, removes the scratch directory, and only prints the definition |
| Extract.ExtractBuildFailure | src/extract-cache.ts:48-70 | a failing build fails the job; no call after the build is made; when the build was reached the job fails with the build's error; nothing outside the scratch directory changes |
| Extract.ExtractRenameFailure | src/extract-cache.ts:61-69 | a rename error other than ENOENT fails the job; no call after the rename (so no removal of the scratch directory) is made; when the rename was reached the job fails with its error |
| Extract.ExtractStaysWithin | src/extract-cache.ts:26-70 | whatever fails, the job changes nothing outside its scratch directory, the cache source and the source's parent |
| Extract.ExtractCaches | src/extract-cache.ts:73-88 | with `skip-extraction` only the notice is printed and nothing else happens; an unreadable cache map fails before any job; otherwise every job runs and the run passes exactly when every job passed, else fails with the first failure |
| Inject.Paths | src/inject-cache.ts:19-22 | the scratch directory is `<scratchDir>/<jobId>`, the definition lies below it, the buildstamp lies inside the cache source, and the tag is `dance:inject-<jobId>` |
| Inject.InjectInOrder | src/inject-cache.ts:28-74 | the inject job makes its calls in the order of the source |
| Inject.PrepareLog | src/inject-cache.ts:32-63 | a successful preparation logs, in order, the prepared directory, the timestamp, the definition, and the running build |
| Inject.PrepareEffect | src/inject-cache.ts:28-59 | after a successful preparation the scratch directory and the cache source are directories and the buildstamp in the source holds the timestamp |
| Inject.BuildEffect | src/inject-cache.ts:64 | the build fails exactly when the oracle says, with its error, and changes nothing on the runner |
| Inject.CleanupEffect | src/inject-cache.ts:67-76 | cleanup fails exactly when removing the scratch directory fails, with that error; a failed removal of the source adds a notice and leaves the source as it was; a successful cleanup leaves no scratch directory, no source unless its removal failed, and ends with the completion message |
| Inject.InjectSucceeded | src/inject-cache.ts:18-78 | a successful job removed the scratch directory and, unless that removal failed, the cache source; a source that could not be removed still holds the buildstamp; the log is the announcement, the preparation messages, the notice if any, and the completion |
| Inject.InjectBuildFailure | src/inject-cache.ts:64-76 | a failing build fails the job with its error; when reached, the scratch directory and the cache source with its buildstamp are left in place and no completion is logged |
| Inject.InjectStaysWithin | src/inject-cache.ts:28-74 | whatever fails, the job changes nothing outside its scratch directory and the cache source |
| Inject.InjectCleanupTolerated | src/inject-cache.ts:67-72 | a failure to remove the cache source never changes how the job ends |
| Inject.ReportsWarn | src/inject-cache.ts:91-94 | the warning of every failed job, naming its source and error, appears in the log; when every job passed no warning is added |
| Inject.WarningFollowsJob | src/inject-cache.ts:89-95 | every failed job's calls are followed immediately by its warning, right after the reports of the jobs before it |
| Inject.ReportsSplit | src/inject-cache.ts:89-95 | the log splits at any job into the reports of the jobs before it, its own report, and the reports of the jobs after it |
| Inject.InjectAll | src/inject-cache.ts:89-95 | every job of the cache map runs, in map order, each on the filesystem the previous one left |
| Inject.InjectCaches | src/inject-cache.ts:81-98 | an unreadable cache map fails before anything is logged; otherwise the count is announced, every job runs, and the run passes exactly when every job passed, else fails with the first failure |

## Left out

- Spawning processes, `docker buildx`, `sudo rm -rf` and the real filesystem
  are not executed. A call's failure comes from the oracle; the filesystem is
  an abstract map; the build's exported tree is part of the oracle.
- The lines that `run` logs inside a transfer job are not part of the job's
  log. `Run.Run` models them separately.
- Concurrency: `Promise.all` runs the jobs one after another, in map order.
  The reported error is the first failure in that order, not the first in
  time. Interleaved log lines of concurrent jobs are not modelled.
- A failing filesystem call has no partial effect: the filesystem stays as it
  was before the call.
- The run ends at the `Promise.all` rejection. Jobs still running after a
  sibling rejected are modelled as running to completion.
- `logGroup`, `AsyncLocalStorage` and `@actions/core` internals are left out.
  The group name is an input of the logger's runtime.
- `startLogGroup` and `endLogGroup` are imported by src/inject-cache.ts but
  not exported by src/logger.ts, so they are treated as doing nothing.
- src/opts.ts is not part of this model. The cache map, the mount fragment,
  the target path, uid, gid, the builder, the scratch directory and the
  image are inputs.
- src/index.ts (the entry point, `process.exit`, the `GITHUB_STATE` write)
  is not part of this model.
- `Math.random` and `Date`: the job suffix and the timestamp are parameters,
  so nothing is claimed about the uniqueness of job ids.
- Strings are sequences of characters. JavaScript's UTF-16 code units (which
  matter to `slice(-40)` on astral characters) are not modelled.
- FileSystem.Join: does not normalise `.`, `..` or doubled separators the way
  `path.join` does.
- FileSystem.Move: replaces whatever is at the destination. Node's
  `fs.rename` instead fails with ENOTEMPTY or EISDIR for some destinations.
  In the extract job the destination has just been removed.
- Run.ExitError: of the stack only the first line is modelled.
- Wrappers.ErrorText: every rejection is assumed to be an `Error` whose name
  is `Error`. A `TypeError` (which prints as `TypeError: ...`) or a thrown
  value that is not an `Error` (which prints as itself and has no stack) is
  not modelled.
- FileSystem.Dirname: follows the POSIX `path.dirname`; the Windows variant
  (backslashes, drive letters) is not modelled.
- FileSystem.MakeDirs: records only the directory it is given. With
  `recursive`, Node also creates each missing ancestor; here ancestors are
  implicit, so the footprints below leave them out.
- FileSystem.WriteFile: does not fail with ENOENT when the parent directory is
  missing, because parents are implicit. Every job creates the parent before
  writing.
- Extract.ExtractStaysWithin: the footprint (the scratch directory, the cache
  source and the source's parent) leaves out the ancestors of the scratch
  directory and of the source's parent, which `fs.mkdir` with `recursive`
  may create.
- Inject.InjectStaysWithin: the footprint (the scratch directory and the cache
  source) leaves out the ancestors that `fs.mkdir` with `recursive` may
  create for either.
- The specification of the action describes two behaviours the code does not
  have. The model follows the code in both cases:
  - The scratch directory is not removed when a job fails: no call after
    the failing one is made (Extract.ExtractBuildFailure,
    Extract.ExtractRenameFailure, Inject.InjectBuildFailure).
  - There is no unprivileged fallback when `sudo rm -rf` fails; the job
    fails instead.
- Extract.ExtractSucceeded: assumes the cache source and the job's scratch directory do not contain one another (`Separate`); the source does not check this, and when they overlap the rename and removals act on the same tree.
- Extract.RelocationEffect: assumes the same separation of the cache source and the scratch directory.
- Inject.InjectSucceeded: assumes the same separation of the cache source and the scratch directory.
- Inject.PrepareEffect: assumes the same separation of the cache source and the scratch directory.
- Inject.CleanupEffect: assumes the same separation of the cache source and the scratch directory.
- Inject.InjectBuildFailure: assumes the same separation of the cache source and the scratch directory.

## Findings

| source | as written | input that shows it | evidently intended | confidence | as-written member | corrected member |
|---|---|---|---|---|---|---|
| src/run.ts:69-77 | the `close` listener rejects on a non-zero exit code but does not return, so it goes on to log `Process exited successfully` and to call `resolve()` | a process that closes with code 1 while verbose output is on | after rejecting, the listener stops: only the failure is logged | not executed | Run.AsWrittenReportsSuccessAfterFailure | Run.FailedExitReportsOnlyFailure |

Because a promise settles once, the outcome is still the rejection; only the
logged lines differ. The as-written listener is `Run.OnEventAsWritten` (and
`Run.AssertSuccessAsWritten` over a sequence of events), and the command
helpers `Run.RunWithInput` and `Run.RunPiped` use it, as the source does. The
corrected listener is `Run.OnEvent` (and `Run.AssertSuccess`); it settles
every sequence of events exactly as the listener as written does.
