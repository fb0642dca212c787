/** The build orchestrator: phase one (the native compile), the skip check,
    phase two (per-file object and bitcode builds with attachment, the Rust
    static-library branch) and the final link. Each step is first defined as
    a function of the world giving its `Step`; the methods below build the
    same commands the way the wrapper does, through the builder object, and
    are proved to produce exactly those steps. */
module Phases {
  import opened Common
  import opened Config
  import opened Host
  import opened Text
  import opened Builders
  import opened Commands
  import opened Attach

  /** The three commands a backend contributes once its mode is known. */
  datatype Toolchain = Toolchain(cc: seq<string>, bcc: seq<string>, ar: seq<string>)

  function ToolchainFor(kind: Kind, mode: string, prefix: string, w: World): (r: Result<Toolchain, ConfigError>)
    ensures r.Ok? <==> ModeSupported(kind, mode)
    ensures r.Ok? ==> r.value == Toolchain(CompilerFor(kind, mode, prefix, w.env).value,
                                           BitcodeCompilerFor(kind, mode, prefix, w.env, w.asDir).value,
                                           LlvmArFor(prefix, w.env))
  {
    match CompilerFor(kind, mode, prefix, w.env)
    case Err(e) => Err(e)
    case Ok(cc) => Ok(Toolchain(cc, BitcodeCompilerFor(kind, mode, prefix, w.env, w.asDir).value, LlvmArFor(prefix, w.env)))
  }

  /** The toolchain of a builder whose mode its backend supports. */
  function ToolsOf(b: Builder, w: World): Toolchain
    requires ModeSupported(b.kind, b.mode)
  {
    ToolchainFor(b.kind, b.mode, b.prefixPath, w).value
  }

  // ---------------------------------------------------------------------
  // The steps, as functions of the world

  /** Runs one child process; a non-zero status terminates with that status. */
  function RunTool(tool: Tool, argv: seq<string>, w: World): (r: Step)
    ensures r.trace == [Spawn(tool, argv)]
    ensures r.exit.Some? <==> w.exitCode(argv) != 0
    ensures r.exit.Some? ==> r.exit.value == w.exitCode(argv)
  {
    var rc := w.exitCode(argv);
    Step(if rc != 0 then Some(rc) else None, [Spawn(tool, argv)])
  }

  function ObjectStep(t: Toolchain, af: ArgFilter, src: string, obj: string, w: World): Step {
    RunTool(ObjectCompile, ObjectCommand(t.cc, af.compileArgs, src, obj), w)
  }

  function BitcodeStep(t: Toolchain, af: ArgFilter, src: string, bc: string, w: World): Step {
    RunTool(BitcodeCompile, BitcodeCommand(t.bcc, af.compileArgs, src, bc), w)
  }

  /** linkFiles: the archiver for a static library, the compiler otherwise. */
  function LinkArgv(t: Toolchain, af: ArgFilter, objs: seq<string>): seq<string> {
    if af.cratetype == Some("staticlib") then ArchiveCommand(t.ar, af.outputName, objs, af.objectFiles)
    else LinkCommand(t.cc, objs, af.objectFiles, af.linkArgs, af.outputName)
  }

  function LinkStep(t: Toolchain, af: ArgFilter, objs: seq<string>, w: World): Step {
    RunTool(Link, LinkArgv(t, af, objs), w)
  }

  /** The archive members whose names contain the crate name, in listing order. */
  function Matching(lines: seq<string>, crate: string): seq<string>
    decreases |lines|
  {
    if lines == [] then []
    else (if Contains(lines[0], crate) then [lines[0]] else []) + Matching(lines[1..], crate)
  }

  /** Every line the filter keeps contains the crate name, and they come in
      listing order. */
  lemma {:induction false} MatchingSound(lines: seq<string>, crate: string)
    ensures var r := Matching(lines, crate);
            (forall k | 0 <= k < |r| :: Contains(r[k], crate)) && IsSubseq(r, lines)
    decreases |lines|
  {
    if lines == [] {
      SubseqRefl(lines);
    } else {
      var rest := Matching(lines[1..], crate);
      MatchingSound(lines[1..], crate);
      if Contains(lines[0], crate) {
        var r := [lines[0]] + rest;
        assert r[0] == lines[0] && r[1..] == rest;
      } else {
        assert [] + rest == rest;
      }
    }
  }

  /** The filter keeps exactly the lines containing the crate name. */
  lemma {:induction false} MatchingExactly(lines: seq<string>, crate: string)
    ensures forall x :: x in Matching(lines, crate) <==> x in lines && Contains(x, crate)
    decreases |lines|
  {
    if lines != [] {
      MatchingExactly(lines[1..], crate);
      assert lines == [lines[0]] + lines[1..];
    }
  }

  /** A listed name is kept once for every time it is listed when it
      contains the crate name, and never otherwise. */
  lemma {:induction false} MatchingCounts(lines: seq<string>, crate: string)
    ensures forall x :: multiset(Matching(lines, crate))[x] == if Contains(x, crate) then multiset(lines)[x] else 0
    decreases |lines|
  {
    if lines != [] {
      MatchingCounts(lines[1..], crate);
      assert lines == [lines[0]] + lines[1..];
      assert multiset(lines) == multiset{lines[0]} + multiset(lines[1..]);
      var head := if Contains(lines[0], crate) then [lines[0]] else [];
      assert multiset(Matching(lines, crate)) == multiset(head) + multiset(Matching(lines[1..], crate));
    }
  }

  /** The members whose extraction succeeded, in order. */
  function Extracted(w: World, ar: seq<string>, archive: string, ms: seq<string>): (r: seq<string>)
    decreases |ms|
  {
    if ms == [] then []
    else (if w.exitCode(ExtractCommand(ar, archive, ms[0])) == 0 then [ms[0]] else [])
         + Extracted(w, ar, archive, ms[1..])
  }

  /** One extraction process per member, in order. */
  function ExtractTrace(ar: seq<string>, archive: string, ms: seq<string>): seq<Action>
    decreases |ms|
  {
    if ms == [] then []
    else [Spawn(ArchiveExtract, ExtractCommand(ar, archive, ms[0]))] + ExtractTrace(ar, archive, ms[1..])
  }

  datatype Scan = Scan(members: seq<string>, trace: seq<Action>)

  /** ArObjectandAttachBitcode: list the output archive; when that fails,
      no members; otherwise extract every member matching the crate name
      and keep those whose extraction succeeded. */
  function ArchiveScan(t: Toolchain, af: ArgFilter, w: World): Scan {
    var list := ListCommand(t.ar, af.outputName);
    if w.exitCode(list) != 0 then Scan([], [Spawn(ArchiveList, list)])
    else
      var matched := Matching(w.stdoutLines(list), af.cratename);
      Scan(Extracted(w, t.ar, af.outputName, matched),
           [Spawn(ArchiveList, list)] + ExtractTrace(t.ar, af.outputName, matched))
  }

  /** Phase two's progress: still going with the objects collected so far,
      or stopped by a step that terminated the process. */
  datatype Progress = Going(objs: seq<string>, trace: seq<Action>) | Stopped(code: int, trace: seq<Action>)

  /** Attaches `bc` to each extracted member in turn, collecting the members. */
  function AttachMembers(w: World, bc: string, ms: seq<string>, objs: seq<string>, trace: seq<Action>): Progress
    decreases |ms|
  {
    if ms == [] then Going(objs, trace)
    else
      var a := AttachBitcodePathToObject(w, bc, ms[0]);
      if a.exit.Some? then Stopped(a.exit.value, trace + a.trace)
      else AttachMembers(w, bc, ms[1..], objs + [ms[0]], trace + a.trace)
  }

  /** The loop body for one source that is not Rust: rebuild its object when
      the command links, then attach a `.bc` input directly or compile and
      attach its bitcode. */
  function FileStep(t: Toolchain, af: ArgFilter, w: World, hidden: bool, src: string): Step {
    var (obj, bc) := af.artifactNames(src, hidden);
    var build := if hidden then ObjectStep(t, af, src, obj, w) else Step(None, []);
    Then(build,
         if EndsWith(src, ".bc") then AttachBitcodePathToObject(w, src, obj)
         else Then(BitcodeStep(t, af, src, bc, w), AttachBitcodePathToObject(w, bc, obj)))
  }

  /** The Rust branch: scan the output archive and attach the crate's
      bitcode to every extracted member. */
  function PatchArchive(t: Toolchain, af: ArgFilter, w: World, objs: seq<string>, trace: seq<Action>): Progress {
    var scan := ArchiveScan(t, af, w);
    AttachMembers(w, af.outputBCname, scan.members, objs, trace + scan.trace)
  }

  /** The per-file loop over the remaining `files`; a Rust source hands over
      to the archive patcher and ends the loop. */
  function PerFile(t: Toolchain, af: ArgFilter, w: World, hidden: bool,
                   files: seq<string>, objs: seq<string>, trace: seq<Action>): Progress
    decreases |files|
  {
    if files == [] then Going(objs, trace)
    else if EndsWith(files[0], ".rs") then PatchArchive(t, af, w, objs, trace)
    else
      match NextFile(t, af, w, hidden, files[0], objs, trace)
      case Stopped(code, tr) => Stopped(code, tr)
      case Going(o, tr) => PerFile(t, af, w, hidden, files[1..], o, tr)
  }

  /** The loop's first turn over a source that is not Rust. */
  lemma {:induction false} PerFileNext(t: Toolchain, af: ArgFilter, w: World, hidden: bool,
                                       files: seq<string>, objs: seq<string>, trace: seq<Action>)
    requires files != [] && !EndsWith(files[0], ".rs")
    ensures var n := NextFile(t, af, w, hidden, files[0], objs, trace);
            PerFile(t, af, w, hidden, files, objs, trace)
            == if n.Stopped? then n else PerFile(t, af, w, hidden, files[1..], n.objs, n.trace)
  {
  }

  /** One turn of the loop for a source that is not Rust: its step, and the
      object it adds to the link when the command links. */
  function NextFile(t: Toolchain, af: ArgFilter, w: World, hidden: bool,
                    src: string, objs: seq<string>, trace: seq<Action>): Progress
  {
    var s := FileStep(t, af, w, hidden, src);
    if s.exit.Some? then Stopped(s.exit.value, trace + s.trace)
    else Going(if hidden then objs + [af.artifactNames(src, hidden).0] else objs, trace + s.trace)
  }

  /** The object and bitcode of the single-file compile-only case: the
      explicit output name wins over the derived one. */
  function CompileOnlyNames(af: ArgFilter): (string, string)
    requires |af.inputFiles| == 1
  {
    var (obj, bc) := af.artifactNames(af.inputFiles[0], false);
    if af.outputFilename.Some? then (af.outputFilename.value, af.bitcodeName) else (obj, bc)
  }

  function CompileOnlyStep(t: Toolchain, af: ArgFilter, w: World): Step
    requires |af.inputFiles| == 1
  {
    var (obj, bc) := CompileOnlyNames(af);
    Then(BitcodeStep(t, af, af.inputFiles[0], bc, w), AttachBitcodePathToObject(w, bc, obj))
  }

  predicate SingleCompileOnly(af: ArgFilter) {
    |af.inputFiles| == 1 && af.isCompileOnly
  }

  /** What phase two does before the link. */
  function PhaseTwoBody(t: Toolchain, af: ArgFilter, w: World): Progress {
    if SingleCompileOnly(af) then
      var s := CompileOnlyStep(t, af, w);
      if s.exit.Some? then Stopped(s.exit.value, s.trace) else Going([], s.trace)
    else PerFile(t, af, w, !af.isCompileOnly, af.inputFiles, [], [])
  }

  /** buildAndAttachBitcode: the body, the link unless compile-only, and
      always a process exit. */
  function PhaseTwo(t: Toolchain, af: ArgFilter, w: World): (r: Run)
    ensures r.outcome.Exit?
  {
    match PhaseTwoBody(t, af, w)
    case Stopped(code, trace) => Run(Exit(code), trace)
    case Going(objs, trace) =>
      if af.isCompileOnly then Run(Exit(0), trace)
      else
        var l := LinkStep(t, af, objs, w);
        Run(Exit(if l.exit.Some? then l.exit.value else 0), trace + l.trace)
  }

  /** The native command of phase one, or None where building it raises. */
  function NativeCommand(t: Toolchain, af: ArgFilter, args: seq<string>): Option<seq<string>> {
    var strip := RemoveEach(args, af.forbiddenArgs);
    if strip.ok then Some(t.cc + strip.rest) else None
  }

  /** wcompile(mode) with the arguments `args` (sys.argv[1:]). Any exception
      before phase two leaves rc at its initial 1. */
  function Invocation(mode: string, args: seq<string>, w: World): Run {
    if w.parentIsCcache then Run(Exit(-1), [])
    else
      match Resolve(mode, w.env, w.onDisk)
      case Err(_) => Run(Return(1), [])
      case Ok(res) =>
        var af := w.classify(FlavorOf(res.kind), args);
        match ToolchainFor(res.kind, mode, res.prefixPath, w)
        case Err(_) => Run(Return(1), [])
        case Ok(t) =>
          match NativeCommand(t, af, args)
          case None => Run(Return(1), [])
          case Some(native) =>
            var rc := w.exitCode(native);
            var t0 := [Spawn(NativeCompile, native)];
            if rc != 0 || af.skip then Run(Return(rc), t0)
            else
              var p := PhaseTwo(t, af, w);
              Run(p.outcome, t0 + p.trace)
  }

  // ---------------------------------------------------------------------
  // The wrapper's procedures

  /** buildObject: the compiler followed by the stripped command. `None`
      means getCompiler or getCommand raised. */
  method BuildObject(b: Builder, w: World) returns (rc: Option<int>, trace: seq<Action>)
    modifies b`cmd
    ensures !ModeSupported(b.kind, b.mode) ==> rc.None? && trace == [] && b.cmd == old(b.cmd)
    ensures ModeSupported(b.kind, b.mode) ==> b.cmd == old(b.Stripped()).rest
    ensures ModeSupported(b.kind, b.mode) && !old(b.Stripped()).ok ==> rc.None? && trace == []
    ensures ModeSupported(b.kind, b.mode) && old(b.Stripped()).ok ==>
              var native := ToolsOf(b, w).cc + b.cmd;
              rc == Some(w.exitCode(native)) && trace == [Spawn(NativeCompile, native)]
  {
    var compiler := CompilerFor(b.kind, b.mode, b.prefixPath, w.env);
    if compiler.Err? {
      return None, [];
    }
    var objCompiler := compiler.value;
    var cmd := b.GetCommand();
    if cmd.None? {
      return None, [];
    }
    objCompiler := objCompiler + cmd.value;
    rc := Some(w.exitCode(objCompiler));
    trace := [Spawn(NativeCompile, objCompiler)];
  }

  /** buildObjectFile */
  method BuildObjectFile(b: Builder, src: string, obj: string, w: World) returns (s: Step)
    requires ModeSupported(b.kind, b.mode)
    modifies b`af
    ensures b.af == Some(old(b.Filter()))
    ensures s == ObjectStep(ToolsOf(b, w), old(b.Filter()), src, obj, w)
  {
    var af := b.GetBitcodeArglistFilter();
    var cc := CompilerFor(b.kind, b.mode, b.prefixPath, w.env).value;
    ghost var base := cc;
    cc := cc + af.compileArgs;
    cc := cc + [src];
    ghost var head := cc;
    ghost var flag := if EndsWith(src, ".rs") then "--emit=obj" else "-c";
    if EndsWith(src, ".rs") {
      cc := cc + ["--emit=obj", "-o", obj];
    } else {
      cc := cc + ["-c", "-o", obj];
    }
    assert cc == head + [flag] + ["-o", obj];
    assert cc == ObjectCommand(base, af.compileArgs, src, obj);
    var rc := w.exitCode(cc);
    s := Step(if rc != 0 then Some(rc) else None, [Spawn(ObjectCompile, cc)]);
  }

  /** buildBitcodeFile */
  method BuildBitcodeFile(b: Builder, src: string, bc: string, w: World) returns (s: Step)
    requires ModeSupported(b.kind, b.mode)
    modifies b`af
    ensures b.af == Some(old(b.Filter()))
    ensures s == BitcodeStep(ToolsOf(b, w), old(b.Filter()), src, bc, w)
  {
    var af := b.GetBitcodeArglistFilter();
    var bcc := BitcodeCompilerFor(b.kind, b.mode, b.prefixPath, w.env, w.asDir).value;
    bcc := bcc + af.compileArgs;
    if EndsWith(src, ".rs") {
      bcc := bcc + ["--emit=llvm-bc", src];
    } else {
      bcc := bcc + ["-c", src];
    }
    bcc := bcc + ["-o", bc];
    assert bcc == BitcodeCommand(ToolsOf(b, w).bcc, af.compileArgs, src, bc);
    var rc := w.exitCode(bcc);
    s := Step(if rc != 0 then Some(rc) else None, [Spawn(BitcodeCompile, bcc)]);
  }

  /** linkFiles */
  method LinkFiles(b: Builder, objectFiles: seq<string>, w: World) returns (s: Step)
    requires ModeSupported(b.kind, b.mode)
    modifies b`af
    ensures b.af == Some(old(b.Filter()))
    ensures s == LinkStep(ToolsOf(b, w), old(b.Filter()), objectFiles, w)
  {
    var af := b.GetBitcodeArglistFilter();
    var outputFile := af.outputName;
    var cc: seq<string>;
    if af.cratetype == Some("staticlib") {
      cc := LlvmArFor(b.prefixPath, w.env);
      cc := cc + ["-rcs", outputFile];
      cc := cc + objectFiles;
      cc := cc + af.objectFiles;
    } else {
      cc := CompilerFor(b.kind, b.mode, b.prefixPath, w.env).value;
      cc := cc + objectFiles;
      cc := cc + af.objectFiles;
      cc := cc + af.linkArgs;
      cc := cc + ["-o", outputFile];
    }
    assert cc == LinkArgv(ToolsOf(b, w), af, objectFiles);
    var rc := w.exitCode(cc);
    s := Step(if rc != 0 then Some(rc) else None, [Spawn(Link, cc)]);
  }

  /** ArObjectandAttachBitcode: list the archive, then extract the members
      matching the crate name one by one, keeping those that succeeded. */
  method ArObjectAndAttachBitcode(b: Builder, w: World) returns (extractedFiles: seq<string>, trace: seq<Action>)
    requires ModeSupported(b.kind, b.mode)
    modifies b`af
    ensures b.af == Some(old(b.Filter()))
    ensures Scan(extractedFiles, trace) == ArchiveScan(ToolsOf(b, w), old(b.Filter()), w)
  {
    extractedFiles := [];
    var cc := LlvmArFor(b.prefixPath, w.env);
    var af := b.GetBitcodeArglistFilter();
    var outputArchive := af.outputName;
    cc := cc + ["t", outputArchive];
    trace := [Spawn(ArchiveList, cc)];
    if w.exitCode(cc) != 0 {
      return;
    }
    var matchedFiles := Matching(w.stdoutLines(cc), af.cratename);
    MatchingSound(w.stdoutLines(cc), af.cratename);
    var ar := LlvmArFor(b.prefixPath, w.env);
    var extractTrace;
    extractedFiles, extractTrace := ExtractMatching(w, ar, outputArchive, af.cratename, matchedFiles);
    trace := trace + extractTrace;
  }

  /** The extraction loop of ArObjectandAttachBitcode over the listed
      members that matched the crate name: extracts each in turn and keeps
      those whose extraction succeeded. */
  method ExtractMatching(w: World, ar: seq<string>, archive: string, crate: string, matched: seq<string>)
    returns (extractedFiles: seq<string>, trace: seq<Action>)
    requires forall k | 0 <= k < |matched| :: Contains(matched[k], crate)
    ensures extractedFiles == Extracted(w, ar, archive, matched)
    ensures trace == ExtractTrace(ar, archive, matched)
  {
    extractedFiles, trace := [], [];
    for i := 0 to |matched|
      invariant extractedFiles == Extracted(w, ar, archive, matched[..i])
      invariant trace == ExtractTrace(ar, archive, matched[..i])
    {
      var filename := matched[i];
      ExtractedAppend(w, ar, archive, matched[..i], [filename]);
      ExtractTraceAppend(ar, archive, matched[..i], [filename]);
      assert matched[..i + 1] == matched[..i] + [filename];
      if Contains(filename, crate) {
        var extract := ar + ["x", archive, filename];
        trace := trace + [Spawn(ArchiveExtract, extract)];
        if w.exitCode(extract) == 0 {
          extractedFiles := extractedFiles + [filename];
        }
      }
    }
    assert matched[..|matched|] == matched;
  }

  lemma {:induction false} ExtractedAppend(w: World, ar: seq<string>, archive: string, a: seq<string>, b: seq<string>)
    ensures Extracted(w, ar, archive, a + b) == Extracted(w, ar, archive, a) + Extracted(w, ar, archive, b)
    decreases |a|
  {
    if a == [] {
      assert a + b == b;
    } else {
      assert (a + b)[0] == a[0] && (a + b)[1..] == a[1..] + b;
      ExtractedAppend(w, ar, archive, a[1..], b);
    }
  }

  lemma {:induction false} ExtractTraceAppend(ar: seq<string>, archive: string, a: seq<string>, b: seq<string>)
    ensures ExtractTrace(ar, archive, a + b) == ExtractTrace(ar, archive, a) + ExtractTrace(ar, archive, b)
    decreases |a|
  {
    if a == [] {
      assert a + b == b;
    } else {
      assert (a + b)[0] == a[0] && (a + b)[1..] == a[1..] + b;
      ExtractTraceAppend(ar, archive, a[1..], b);
    }
  }

  /** The attachment loop of the Rust branch: attach `bc` to each extracted
      member and collect it, stopping at a terminating attachment. */
  method AttachEach(w: World, bc: string, ms: seq<string>, objs: seq<string>, trace: seq<Action>)
    returns (p: Progress)
    ensures p == AttachMembers(w, bc, ms, objs, trace)
  {
    var newObjectFiles, tr := objs, trace;
    var j := 0;
    while j < |ms|
      invariant 0 <= j <= |ms|
      invariant AttachMembers(w, bc, ms, objs, trace) == AttachMembers(w, bc, ms[j..], newObjectFiles, tr)
    {
      var obj := ms[j];
      assert ms[j..][0] == obj && ms[j..][1..] == ms[j + 1..];
      var a := AttachBitcodePathToObject(w, bc, obj);
      tr := tr + a.trace;
      if a.exit.Some? {
        return Stopped(a.exit.value, tr);
      }
      newObjectFiles := newObjectFiles + [obj];
      j := j + 1;
    }
    p := Going(newObjectFiles, tr);
  }

  /** The loop body for a source that is not Rust. */
  method CompileAndAttach(b: Builder, af: ArgFilter, w: World, hidden: bool, srcFile: string) returns (s: Step)
    requires b.af == Some(af)
    requires ModeSupported(b.kind, b.mode)
    modifies b`af
    ensures b.af == Some(af)
    ensures s == FileStep(ToolsOf(b, w), af, w, hidden, srcFile)
  {
    var (objFile, bcFile) := af.artifactNames(srcFile, hidden);
    var build := Step(None, []);
    if hidden {
      build := BuildObjectFile(b, srcFile, objFile, w);
      if build.exit.Some? {
        return build;
      }
    }
    if EndsWith(srcFile, ".bc") {
      var a := AttachBitcodePathToObject(w, srcFile, objFile);
      s := Then(build, a);
    } else {
      var c := BuildBitcodeFile(b, srcFile, bcFile, w);
      if c.exit.Some? {
        return Then(build, c);
      }
      var a := AttachBitcodePathToObject(w, bcFile, objFile);
      s := Then(build, Then(c, a));
    }
  }

  /** The single-file compile-only case: bitcode, then attachment to the
      explicit output object or the derived one. */
  method CompileOnly(b: Builder, af: ArgFilter, w: World) returns (s: Step)
    requires b.af == Some(af) && |af.inputFiles| == 1
    requires ModeSupported(b.kind, b.mode)
    modifies b`af
    ensures b.af == Some(af)
    ensures s == CompileOnlyStep(ToolsOf(b, w), af, w)
  {
    var srcFile := af.inputFiles[0];
    var (objFile, bcFile) := af.artifactNames(srcFile, false);
    if af.outputFilename.Some? {
      objFile := af.outputFilename.value;
      bcFile := af.bitcodeName;
    }
    var c := BuildBitcodeFile(b, srcFile, bcFile, w);
    if c.exit.Some? {
      return c;
    }
    var a := AttachBitcodePathToObject(w, bcFile, objFile);
    s := Then(c, a);
  }

  /** The Rust branch of the loop body. */
  method PatchOutputArchive(b: Builder, af: ArgFilter, w: World, objs: seq<string>, trace: seq<Action>)
    returns (p: Progress)
    requires b.af == Some(af)
    requires ModeSupported(b.kind, b.mode)
    modifies b`af
    ensures b.af == Some(af)
    ensures p == PatchArchive(ToolsOf(b, w), af, w, objs, trace)
  {
    var extractedFiles, scanTrace := ArObjectAndAttachBitcode(b, w);
    p := AttachEach(w, af.outputBCname, extractedFiles, objs, trace + scanTrace);
  }

  /** The loop body for a source that is not Rust, with the bookkeeping of
      the object list and the trace. */
  method NextInputFile(b: Builder, af: ArgFilter, w: World, hidden: bool,
                       srcFile: string, objs: seq<string>, trace: seq<Action>) returns (p: Progress)
    requires b.af == Some(af)
    requires ModeSupported(b.kind, b.mode)
    modifies b`af
    ensures b.af == Some(af)
    ensures p == NextFile(ToolsOf(b, w), af, w, hidden, srcFile, objs, trace)
  {
    var objFile := af.artifactNames(srcFile, hidden).0;
    var s := CompileAndAttach(b, af, w, hidden, srcFile);
    if s.exit.Some? {
      return Stopped(s.exit.value, trace + s.trace);
    }
    p := Going(if hidden then objs + [objFile] else objs, trace + s.trace);
  }

  /** The per-file loop of buildAndAttachBitcode over the input files; a
      Rust source ends it. */
  method EachInputFile(b: Builder, af: ArgFilter, w: World, hidden: bool) returns (p: Progress)
    requires b.af == Some(af)
    requires ModeSupported(b.kind, b.mode)
    modifies b`af
    ensures b.af == Some(af)
    ensures p == PerFile(ToolsOf(b, w), af, w, hidden, af.inputFiles, [], [])
  {
    ghost var t := ToolsOf(b, w);
    var newObjectFiles: seq<string> := [];
    var trace: seq<Action> := [];
    var i := 0;
    while i < |af.inputFiles|
      invariant 0 <= i <= |af.inputFiles|
      invariant b.af == Some(af)
      invariant PerFile(t, af, w, hidden, af.inputFiles, [], [])
             == PerFile(t, af, w, hidden, af.inputFiles[i..], newObjectFiles, trace)
    {
      var srcFile := af.inputFiles[i];
      assert af.inputFiles[i..][0] == srcFile && af.inputFiles[i..][1..] == af.inputFiles[i + 1..];
      if EndsWith(srcFile, ".rs") {
        p := PatchOutputArchive(b, af, w, newObjectFiles, trace);
        return;
      }
      var next := NextInputFile(b, af, w, hidden, srcFile, newObjectFiles, trace);
      PerFileNext(t, af, w, hidden, af.inputFiles[i..], newObjectFiles, trace);
      if next.Stopped? {
        return next;
      }
      newObjectFiles, trace := next.objs, next.trace;
      i := i + 1;
    }
    p := Going(newObjectFiles, trace);
  }

  /** buildAndAttachBitcode(builder, af), where `af` is the builder's
      memoised filter. Ends the process in every case. */
  method BuildAndAttachBitcode(b: Builder, af: ArgFilter, w: World) returns (r: Run)
    requires b.af == Some(af)
    requires ModeSupported(b.kind, b.mode)
    modifies b`af
    ensures b.af == Some(af)
    ensures r == PhaseTwo(ToolsOf(b, w), af, w)
  {
    var p: Progress;
    if |af.inputFiles| == 1 && af.isCompileOnly {
      var s := CompileOnly(b, af, w);
      p := if s.exit.Some? then Stopped(s.exit.value, s.trace) else Going([], s.trace);
    } else {
      p := EachInputFile(b, af, w, !af.isCompileOnly);
    }
    assert p == PhaseTwoBody(ToolsOf(b, w), af, w);
    if p.Stopped? {
      return Run(Exit(p.code), p.trace);
    }
    var trace := p.trace;
    if !af.isCompileOnly {
      var l := LinkFiles(b, p.objs, w);
      trace := trace + l.trace;
      if l.exit.Some? {
        return Run(Exit(l.exit.value), trace);
      }
    }
    return Run(Exit(0), trace);
  }

  /** wcompile(mode): the ccache guard, backend selection, phase one, the
      skip check and phase two. */
  method WCompile(mode: string, args: seq<string>, w: World) returns (r: Run)
    ensures r == Invocation(mode, args, w)
  {
    if w.parentIsCcache {
      return Run(Exit(-1), []);
    }
    var rc := 1;
    var built := GetBuilder(args, mode, w);
    if built.Err? {
      return Run(Return(rc), []);
    }
    var builder := built.value;
    var af := builder.GetBitcodeArglistFilter();
    var native, trace := BuildObject(builder, w);
    if native.None? {
      return Run(Return(rc), trace);
    }
    rc := native.value;
    if rc != 0 {
      return Run(Return(rc), trace);
    }
    if af.skip {
      return Run(Return(rc), trace);
    }
    var p := BuildAndAttachBitcode(builder, af, w);
    return Run(p.outcome, trace + p.trace);
  }
}
