/** The ephemeral build definitions ("Dancefiles") the transfer jobs hand to
    `docker buildx build`.

    A definition is a list of instructions; `Render` produces the text the
    template literals of src/extract-cache.ts and src/inject-cache.ts
    produce. In those literals every `RUN` line ends in a backslash, which a
    JavaScript template literal treats as a line continuation: the backslash
    and the line break vanish, so a `RUN` instruction is one line whose
    segments are separated by the space before the backslash and the four
    spaces of indentation of the next source line.

    The mount fragment and the target path come from the configuration
    helpers and are opaque strings here.
 */
module Dancefile {
  import opened Wrappers
  import opened Text

  datatype Instruction =
    | From(image: string, stage: Option<string>)
    | Copy(fromStage: Option<string>, src: string, dst: string)
    | Run(segments: seq<string>)

  /** What a continued line leaves between two segments of one `RUN`. */
  const Continuation := "     "

  /** The builder-side directory the data passes through. */
  const DanceCacheDir := "/var/dance-cache"

  /** The name of the first stage of the extract definition. */
  const ExtractStage := "dance-extract"

  /** Where the extract definition's final stage puts the cache. */
  const ExportDir := "/cache"

  /** The buildstamp file, copied in first so the copy step is never reused
      from the layer cache. */
  const Buildstamp := "buildstamp"

  function RenderInstruction(i: Instruction): string {
    match i
    case From(image, stage) =>
      "FROM " + image + (if stage.Some? then " AS " + stage.value else "")
    case Copy(fromStage, src, dst) =>
      "COPY " + (if fromStage.Some? then "--from=" + fromStage.value + " " else "") + src + " " + dst
    case Run(segments) =>
      "RUN " + JoinWith(segments, Continuation)
  }

  function RenderLines(instrs: seq<Instruction>): (r: seq<string>)
    ensures |r| == |instrs|
    ensures forall k :: 0 <= k < |instrs| ==> r[k] == RenderInstruction(instrs[k])
  {
    if instrs == [] then [] else [RenderInstruction(instrs[0])] + RenderLines(instrs[1..])
  }

  /** Each line followed by a line break. */
  function Terminated(lines: seq<string>): string {
    if lines == [] then [] else lines[0] + "\n" + Terminated(lines[1..])
  }

  lemma TerminatedCons(line: string, rest: seq<string>)
    ensures Terminated([line] + rest) == line + "\n" + Terminated(rest)
  {
    assert ([line] + rest)[1..] == rest;
  }

  /** The text of a definition: an empty first line (the template literal
      opens with a line break), then one line per instruction. */
  function Render(instrs: seq<Instruction>): string {
    "\n" + Terminated(RenderLines(instrs))
  }

  /** `text.split("\n")`. */
  function SplitLines(s: string): (r: seq<string>)
    ensures |r| >= 1
  {
    Split(s, '\n')
  }

  predicate SingleLine(s: string) { '\n' !in s }

  /** Lines without breaks can be read back from their terminated text. */
  lemma {:induction false} SplitTerminated(lines: seq<string>)
    requires forall k :: 0 <= k < |lines| ==> SingleLine(lines[k])
    ensures SplitLines(Terminated(lines)) == lines + [[]]
  {
    if lines != [] {
      SplitCons(lines[0], '\n', Terminated(lines[1..]));
      SplitTerminated(lines[1..]);
    }
  }

  /** A rendered definition reads back as an empty line, one line per
      instruction in order, and the empty remainder after the last break —
      provided no instruction spans a line break of its own. */
  lemma {:induction false} RenderSplitsIntoInstructions(instrs: seq<Instruction>)
    requires forall k :: 0 <= k < |instrs| ==> SingleLine(RenderInstruction(instrs[k]))
    ensures SplitLines(Render(instrs)) == [[]] + RenderLines(instrs) + [[]]
  {
    var lines := RenderLines(instrs);
    SplitTerminated(lines);
    var t := Terminated(lines);
    EmptyLineFirst(t);
  }

  lemma EmptyLineFirst(t: string)
    ensures SplitLines("\n" + t) == [[]] + SplitLines(t)
  {
    assert ("\n" + t)[0] == '\n';
    assert ("\n" + t)[1..] == t;
  }

  /** The extract definition: stage `dance-extract` on the utility image
      copies the buildstamp in, then, with the cache mounted, copies the
      target directory's contents into the dance-cache directory, tolerating
      failure; the final stage starts from nothing and takes that directory
      as `/cache`. */
  function ExtractDefinition(image: string, mountArgs: string, targetPath: string): seq<Instruction> {
    [ From(image, Some(ExtractStage)),
      Copy(None, Buildstamp, Buildstamp),
      Run(["--mount=" + mountArgs,
           "mkdir -p /var/dance-cache/",
           "&& cp -p -R " + targetPath + "/. /var/dance-cache/ || true"]),
      From("scratch", None),
      Copy(Some(ExtractStage), DanceCacheDir, ExportDir) ]
  }

  /** The text written to `Dancefile.extract`, line for line what the
      template literal of the source produces (`Continuation` is what each
      backslash-newline-indentation leaves behind). */
  function ExtractDancefile(image: string, mountArgs: string, targetPath: string): string {
    Render(ExtractDefinition(image, mountArgs, targetPath))
  }

  lemma ExtractDancefileText(image: string, mountArgs: string, targetPath: string)
    ensures ExtractDancefile(image, mountArgs, targetPath) == "\n" + Terminated([
      "FROM " + image + " AS dance-extract",
      "COPY buildstamp buildstamp",
      ExtractRunLine(mountArgs, targetPath),
      "FROM scratch",
      "COPY --from=dance-extract /var/dance-cache /cache"])
  {
    ExtractLines(image, mountArgs, targetPath);
  }

  /** The `RUN` line of the extract definition as the template literal spells it. */
  function ExtractRunLine(mountArgs: string, targetPath: string): string {
    "RUN --mount=" + mountArgs + Continuation + "mkdir -p /var/dance-cache/"
      + Continuation + ("&& cp -p -R " + targetPath + "/. /var/dance-cache/ || true")
  }

  lemma ExtractLines(image: string, mountArgs: string, targetPath: string)
    ensures RenderLines(ExtractDefinition(image, mountArgs, targetPath)) == [
      "FROM " + image + " AS dance-extract",
      "COPY buildstamp buildstamp",
      ExtractRunLine(mountArgs, targetPath),
      "FROM scratch",
      "COPY --from=dance-extract /var/dance-cache /cache"]
  {
    var d := ExtractDefinition(image, mountArgs, targetPath);
    ExtractRunRenders(mountArgs, targetPath);
    assert d[2] == ExtractDefinition("", mountArgs, targetPath)[2];
    assert RenderInstruction(d[0]) == "FROM " + image + " AS dance-extract" by {
      assert " AS " + "dance-extract" == " AS dance-extract";
    }
    ExportCopyLine();
    BuildstampCopyLine();
    ScratchLine();
    RenderLines5(d, "FROM " + image + " AS dance-extract", "COPY buildstamp buildstamp",
      ExtractRunLine(mountArgs, targetPath), "FROM scratch", "COPY --from=dance-extract /var/dance-cache /cache");
  }

  lemma ExtractRunRenders(mountArgs: string, targetPath: string)
    ensures RenderInstruction(ExtractDefinition("", mountArgs, targetPath)[2]) == ExtractRunLine(mountArgs, targetPath)
  {
    var d := ExtractDefinition("", mountArgs, targetPath);
    RenderRun3(d[2].segments[0], d[2].segments[1], d[2].segments[2]);
    MountPrefix(mountArgs);
  }

  lemma RenderLines5(d: seq<Instruction>, e0: string, e1: string, e2: string, e3: string, e4: string)
    requires |d| == 5
    requires RenderInstruction(d[0]) == e0 && RenderInstruction(d[1]) == e1 && RenderInstruction(d[2]) == e2
    requires RenderInstruction(d[3]) == e3 && RenderInstruction(d[4]) == e4
    ensures RenderLines(d) == [e0, e1, e2, e3, e4]
  {
  }

  lemma MountPrefix(mountArgs: string)
    ensures "RUN " + ("--mount=" + mountArgs) == "RUN --mount=" + mountArgs
  {
    assert "RUN " + "--mount=" == "RUN --mount=";
  }

  lemma ExportCopyLine()
    ensures RenderInstruction(Copy(Some(ExtractStage), DanceCacheDir, ExportDir))
         == "COPY --from=dance-extract /var/dance-cache /cache"
  {
    CopyFromPrefix();
    CopyFromSuffix();
  }

  lemma CopyFromPrefix()
    ensures "COPY " + ("--from=" + "dance-extract" + " ") == "COPY --from=dance-extract "
  {
    assert "--from=" + "dance-extract" + " " == "--from=dance-extract ";
  }

  lemma CopyFromSuffix()
    ensures "COPY --from=dance-extract " + "/var/dance-cache" + " " + "/cache" == "COPY --from=dance-extract /var/dance-cache /cache"
  {
    assert "/var/dance-cache" + " " + "/cache" == "/var/dance-cache /cache";
    assert "COPY --from=dance-extract " + "/var/dance-cache /cache" == "COPY --from=dance-extract /var/dance-cache /cache";
  }

  lemma BuildstampCopyLine()
    ensures RenderInstruction(Copy(None, Buildstamp, Buildstamp)) == "COPY buildstamp buildstamp"
  {
    assert "COPY " + "" + "buildstamp" == "COPY buildstamp";
    assert "COPY buildstamp" + " " + "buildstamp" == "COPY buildstamp buildstamp";
  }

  lemma ScratchLine()
    ensures RenderInstruction(From("scratch", None)) == "FROM scratch"
  {
    assert "FROM " + "scratch" + "" == "FROM scratch";
  }

  /** A three-segment `RUN` whose first segment is a mount renders on one
      line, segments separated by the continuation. */
  lemma RenderRun3(a: string, b: string, c: string)
    ensures RenderInstruction(Run([a, b, c])) == "RUN " + a + Continuation + b + Continuation + c
  {
    var run := [a, b, c];
    assert run[1..][1..] == [c];
    assert JoinWith(run[1..][1..], Continuation) == c;
    assert JoinWith(run[1..], Continuation) == b + Continuation + c;
  }

  /** `&& chown -R <uid>:<gid> <targetPath>` when either id is configured,
      otherwise nothing. */
  function OwnershipCommand(uid: string, gid: string, targetPath: string): (r: string)
    ensures r == [] <==> uid == [] && gid == []
    ensures r != [] ==> r == "&& chown -R " + uid + ":" + gid + " " + targetPath
  {
    if uid != [] || gid != [] then "&& chown -R " + uid + ":" + gid + " " + targetPath else ""
  }

  /** The inject definition: the utility image, the buildstamp copied in,
      then, with the cache mounted and the build context bind-mounted at the
      dance-cache directory, a copy of the context into the target directory
      and the ownership fix-up, tolerating failure. */
  function InjectDefinition(image: string, mountArgs: string, targetPath: string, uid: string, gid: string): seq<Instruction> {
    [ From(image, None),
      Copy(None, Buildstamp, Buildstamp),
      Run(["--mount=" + mountArgs,
           "--mount=type=bind,source=.,target=/var/dance-cache",
           "cp -p -R /var/dance-cache/. " + targetPath + " " + OwnershipCommand(uid, gid, targetPath) + " || true"]) ]
  }

  /** The text written to `Dancefile.inject`, line for line what the
      template literal of the source produces. */
  function InjectDancefile(image: string, mountArgs: string, targetPath: string, uid: string, gid: string): string {
    Render(InjectDefinition(image, mountArgs, targetPath, uid, gid))
  }

  lemma InjectDancefileText(image: string, mountArgs: string, targetPath: string, uid: string, gid: string)
    ensures InjectDancefile(image, mountArgs, targetPath, uid, gid) == "\n" + Terminated([
      "FROM " + image,
      "COPY buildstamp buildstamp",
      InjectRunLine(mountArgs, targetPath, uid, gid)])
  {
    InjectLines(image, mountArgs, targetPath, uid, gid);
  }

  lemma InjectLines(image: string, mountArgs: string, targetPath: string, uid: string, gid: string)
    ensures RenderLines(InjectDefinition(image, mountArgs, targetPath, uid, gid)) == [
      "FROM " + image,
      "COPY buildstamp buildstamp",
      InjectRunLine(mountArgs, targetPath, uid, gid)]
  {
    var d := InjectDefinition(image, mountArgs, targetPath, uid, gid);
    InjectRunRenders(mountArgs, targetPath, uid, gid);
    assert RenderInstruction(d[0]) == "FROM " + image;
    BuildstampCopyLine();
    RenderLines3(d, "FROM " + image, "COPY buildstamp buildstamp", InjectRunLine(mountArgs, targetPath, uid, gid));
  }

  /** The `RUN` line of the inject definition as the template literal spells it. */
  function InjectRunLine(mountArgs: string, targetPath: string, uid: string, gid: string): string {
    "RUN --mount=" + mountArgs + Continuation + "--mount=type=bind,source=.,target=/var/dance-cache"
      + Continuation + ("cp -p -R /var/dance-cache/. " + targetPath + " " + OwnershipCommand(uid, gid, targetPath) + " || true")
  }

  lemma InjectRunRenders(mountArgs: string, targetPath: string, uid: string, gid: string)
    ensures RenderInstruction(InjectDefinition("", mountArgs, targetPath, uid, gid)[2]) == InjectRunLine(mountArgs, targetPath, uid, gid)
  {
    var d := InjectDefinition("", mountArgs, targetPath, uid, gid);
    RenderRun3(d[2].segments[0], d[2].segments[1], d[2].segments[2]);
    MountPrefix(mountArgs);
  }

  lemma RenderLines3(d: seq<Instruction>, e0: string, e1: string, e2: string)
    requires |d| == 3
    requires RenderInstruction(d[0]) == e0 && RenderInstruction(d[1]) == e1 && RenderInstruction(d[2]) == e2
    ensures RenderLines(d) == [e0, e1, e2]
  {
  }
}
