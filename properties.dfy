/** Properties of whole runs of the wrapper: what phase one decides, which
    child processes phase two may start, the objects it links, and what the
    archive patcher returns. */
module Properties {
  import opened Common
  import opened Config
  import opened Host
  import opened Text
  import opened Builders
  import opened Commands
  import opened Attach
  import opened Phases

  /** Every child process in the trace is one of `tools`. */
  ghost predicate SpawnsOnly(trace: seq<Action>, tools: set<Tool>) {
    forall k | 0 <= k < |trace| :: trace[k].Spawn? ==> trace[k].tool in tools
  }

  lemma SpawnsOnlyAppend(a: seq<Action>, b: seq<Action>, tools: set<Tool>)
    ensures SpawnsOnly(a + b, tools) <==> SpawnsOnly(a, tools) && SpawnsOnly(b, tools)
  {
    if SpawnsOnly(a + b, tools) {
      forall k | 0 <= k < |b| ensures b[k].Spawn? ==> b[k].tool in tools {
        assert (a + b)[|a| + k] == b[k];
      }
      forall k | 0 <= k < |a| ensures a[k].Spawn? ==> a[k].tool in tools {
        assert (a + b)[k] == a[k];
      }
    }
  }

  /** A trace whose child processes all come from `tools` starts none outside it. */
  lemma NotUsedOutside(trace: seq<Action>, tools: set<Tool>, tool: Tool)
    requires SpawnsOnly(trace, tools) && tool !in tools
    ensures !Uses(trace, tool)
  {
  }

  // ---------------------------------------------------------------------
  // Phase one

  /** wcompile returns, rather than exits, exactly when it never reached
      phase two: rc stays 1 on a configuration error or a failed strip with
      nothing started, and otherwise it is the native compile's status with
      that compile the only child process. Exits come from the ccache guard
      or from phase two after a successful native compile. */
  lemma {:induction false} ReturnsOnlyFromPhaseOne(mode: string, args: seq<string>, w: World)
    ensures var r := Invocation(mode, args, w);
      && (r.outcome.Return? ==>
            || (r.trace == [] && r.outcome.rc == 1)
            || (&& |r.trace| == 1 && r.trace[0].Spawn? && r.trace[0].tool == NativeCompile
                && r.outcome.rc == w.exitCode(r.trace[0].argv)))
      && (r.outcome.Return? ==> !Uses(r.trace, BitcodeCompile) && !Uses(r.trace, Link) && !Uses(r.trace, SectionEdit))
      && (r.outcome.Exit? ==>
            || (w.parentIsCcache && r == Run(Exit(-1), []))
            || (&& |r.trace| >= 1 && r.trace[0].Spawn? && r.trace[0].tool == NativeCompile
                && w.exitCode(r.trace[0].argv) == 0))
  {
    var r := Invocation(mode, args, w);
    if !w.parentIsCcache {
      match Resolve(mode, w.env, w.onDisk)
      case Err(_) =>
      case Ok(res) =>
        var af := w.classify(FlavorOf(res.kind), args);
        match ToolchainFor(res.kind, mode, res.prefixPath, w)
        case Err(_) =>
        case Ok(t) =>
          match NativeCommand(t, af, args)
          case None =>
          case Some(native) =>
            if w.exitCode(native) != 0 || af.skip {
              assert r == Run(Return(w.exitCode(native)), [Spawn(NativeCompile, native)]);
              NotUsedOutside(r.trace, {NativeCompile}, BitcodeCompile);
              NotUsedOutside(r.trace, {NativeCompile}, Link);
              NotUsedOutside(r.trace, {NativeCompile}, SectionEdit);
            } else {
              var p := PhaseTwo(t, af, w);
              assert r == Run(p.outcome, [Spawn(NativeCompile, native)] + p.trace);
            }
    }
  }

  /** A failed native compile is reported as wcompile's return value and
      nothing else is started; so is a successful one whose command needs no
      bitcode. */
  lemma {:induction false} NativeFailureOrSkipReturns(mode: string, args: seq<string>, w: World, res: Resolved, t: Toolchain)
    requires !w.parentIsCcache
    requires Resolve(mode, w.env, w.onDisk) == Ok(res)
    requires ToolchainFor(res.kind, mode, res.prefixPath, w) == Ok(t)
    requires var af := w.classify(FlavorOf(res.kind), args);
             var n := NativeCommand(t, af, args);
             n.Some? && (w.exitCode(n.value) != 0 || af.skip)
    ensures var n := NativeCommand(t, w.classify(FlavorOf(res.kind), args), args).value;
            Invocation(mode, args, w) == Run(Return(w.exitCode(n)), [Spawn(NativeCompile, n)])
  {
  }

  /** The native command is the compiler followed by the caller's arguments
      with one occurrence of each forbidden argument removed, the others in
      their original order; it is missing exactly when a forbidden argument
      is absent. */
  lemma {:induction false} NativeCommandShape(t: Toolchain, af: ArgFilter, args: seq<string>)
    ensures NativeCommand(t, af, args).Some? <==> multiset(af.forbiddenArgs) <= multiset(args)
    ensures var n := NativeCommand(t, af, args);
            n.Some? ==>
              && t.cc <= n.value
              && |n.value| == |t.cc| + |args| - |af.forbiddenArgs|
              && IsSubseq(n.value[|t.cc|..], args)
              && multiset(n.value[|t.cc|..]) == multiset(args) - multiset(af.forbiddenArgs)
  {
    var strip := RemoveEach(args, af.forbiddenArgs);
    RemoveEachSucceeds(args, af.forbiddenArgs);
    RemoveEachCounts(args, af.forbiddenArgs);
    RemoveEachLength(args, af.forbiddenArgs);
    RemoveEachOrder(args, af.forbiddenArgs);
    if strip.ok {
      assert (t.cc + strip.rest)[|t.cc|..] == strip.rest;
    }
  }

  // ---------------------------------------------------------------------
  // Which child processes phase two starts

  lemma {:induction false} AttachSpawnsEditOnly(w: World, bc: string, obj: string)
    ensures SpawnsOnly(AttachBitcodePathToObject(w, bc, obj).trace, {SectionEdit})
  {
    AttachContract(w, bc, obj);
  }

  lemma {:induction false} ExtractTraceSpawns(ar: seq<string>, archive: string, ms: seq<string>)
    ensures SpawnsOnly(ExtractTrace(ar, archive, ms), {ArchiveExtract})
    decreases |ms|
  {
    if ms != [] {
      ExtractTraceSpawns(ar, archive, ms[1..]);
      SpawnsOnlyAppend([Spawn(ArchiveExtract, ExtractCommand(ar, archive, ms[0]))],
                       ExtractTrace(ar, archive, ms[1..]), {ArchiveExtract});
    }
  }

  lemma {:induction false} ArchiveScanSpawns(t: Toolchain, af: ArgFilter, w: World)
    ensures SpawnsOnly(ArchiveScan(t, af, w).trace, {ArchiveList, ArchiveExtract})
  {
    var list := ListCommand(t.ar, af.outputName);
    if w.exitCode(list) == 0 {
      var matched := Matching(w.stdoutLines(list), af.cratename);
      ExtractTraceSpawns(t.ar, af.outputName, matched);
      SpawnsOnlyAppend([Spawn(ArchiveList, list)], ExtractTrace(t.ar, af.outputName, matched), {ArchiveList, ArchiveExtract});
    }
  }

  lemma {:induction false} AttachMembersSpawns(w: World, bc: string, ms: seq<string>, objs: seq<string>,
                                               trace: seq<Action>, tools: set<Tool>)
    requires SectionEdit in tools && SpawnsOnly(trace, tools)
    ensures SpawnsOnly(AttachMembers(w, bc, ms, objs, trace).trace, tools)
    decreases |ms|
  {
    if ms != [] {
      var a := AttachBitcodePathToObject(w, bc, ms[0]);
      AttachSpawnsEditOnly(w, bc, ms[0]);
      SpawnsOnlyAppend(trace, a.trace, tools);
      AttachMembersSpawns(w, bc, ms[1..], objs + [ms[0]], trace + a.trace, tools);
    }
  }

  /** The child processes a phase-two body may start: never the linker,
      and the object compiler only when the command links. */
  function BodyTools(hidden: bool): set<Tool> {
    {BitcodeCompile, SectionEdit, ArchiveList, ArchiveExtract} + (if hidden then {ObjectCompile} else {})
  }

  lemma {:induction false} FileStepSpawns(t: Toolchain, af: ArgFilter, w: World, hidden: bool, src: string)
    ensures SpawnsOnly(FileStep(t, af, w, hidden, src).trace, BodyTools(hidden))
  {
    var (obj, bc) := af.artifactNames(src, hidden);
    var build := if hidden then ObjectStep(t, af, src, obj, w) else Step(None, []);
    var tools := BodyTools(hidden);
    AttachSpawnsEditOnly(w, src, obj);
    AttachSpawnsEditOnly(w, bc, obj);
    var bcs := BitcodeStep(t, af, src, bc, w);
    var rest := if EndsWith(src, ".bc") then AttachBitcodePathToObject(w, src, obj)
                else Then(bcs, AttachBitcodePathToObject(w, bc, obj));
    SpawnsOnlyAppend(bcs.trace, AttachBitcodePathToObject(w, bc, obj).trace, tools);
    assert SpawnsOnly(rest.trace, tools);
    SpawnsOnlyAppend(build.trace, rest.trace, tools);
  }

  lemma {:induction false} PerFileSpawns(t: Toolchain, af: ArgFilter, w: World, hidden: bool,
                                         files: seq<string>, objs: seq<string>, trace: seq<Action>)
    requires SpawnsOnly(trace, BodyTools(hidden))
    ensures SpawnsOnly(PerFile(t, af, w, hidden, files, objs, trace).trace, BodyTools(hidden))
    decreases |files|
  {
    var tools := BodyTools(hidden);
    if files == [] {
    } else if EndsWith(files[0], ".rs") {
      var scan := ArchiveScan(t, af, w);
      ArchiveScanSpawns(t, af, w);
      SpawnsOnlyAppend(trace, scan.trace, tools);
      AttachMembersSpawns(w, af.outputBCname, scan.members, objs, trace + scan.trace, tools);
    } else {
      var s := FileStep(t, af, w, hidden, files[0]);
      FileStepSpawns(t, af, w, hidden, files[0]);
      SpawnsOnlyAppend(trace, s.trace, tools);
      if s.exit.None? {
        PerFileSpawns(t, af, w, hidden, files[1..], NextFile(t, af, w, hidden, files[0], objs, trace).objs, trace + s.trace);
      }
    }
  }

  lemma {:induction false} PhaseTwoBodySpawns(t: Toolchain, af: ArgFilter, w: World)
    ensures SpawnsOnly(PhaseTwoBody(t, af, w).trace, BodyTools(!af.isCompileOnly))
  {
    if SingleCompileOnly(af) {
      var (obj, bc) := CompileOnlyNames(af);
      AttachSpawnsEditOnly(w, bc, obj);
      SpawnsOnlyAppend(BitcodeStep(t, af, af.inputFiles[0], bc, w).trace,
                       AttachBitcodePathToObject(w, bc, obj).trace, BodyTools(false));
    } else {
      PerFileSpawns(t, af, w, !af.isCompileOnly, af.inputFiles, [], []);
    }
  }

  /** The link happens exactly when the command is not compile-only and no
      step of phase two terminated the process first; it is then the last
      child process. A compile-only command never rebuilds an object either. */
  lemma {:induction false} LinkOnlyWhenNotCompileOnly(t: Toolchain, af: ArgFilter, w: World)
    ensures var r := PhaseTwo(t, af, w);
            Uses(r.trace, Link) <==> !af.isCompileOnly && PhaseTwoBody(t, af, w).Going?
    ensures var r := PhaseTwo(t, af, w);
            !af.isCompileOnly && PhaseTwoBody(t, af, w).Going? ==>
              r.trace[|r.trace| - 1] == Spawn(Link, LinkArgv(t, af, PhaseTwoBody(t, af, w).objs))
    ensures af.isCompileOnly ==> !Uses(PhaseTwo(t, af, w).trace, ObjectCompile)
  {
    var body := PhaseTwoBody(t, af, w);
    var r := PhaseTwo(t, af, w);
    PhaseTwoBodySpawns(t, af, w);
    NotUsedOutside(body.trace, BodyTools(!af.isCompileOnly), Link);
    if !af.isCompileOnly && body.Going? {
      var l := LinkStep(t, af, body.objs, w);
      assert r.trace == body.trace + l.trace;
      assert r.trace[|body.trace|] == Spawn(Link, LinkArgv(t, af, body.objs));
    } else {
      assert r.trace == body.trace;
      if af.isCompileOnly {
        NotUsedOutside(body.trace, BodyTools(false), ObjectCompile);
      }
    }
  }

  // ---------------------------------------------------------------------
  // The per-file loop

  /** A `.bc` input is attached as it is: no bitcode compile is started for it. */
  lemma {:induction false} BitcodeInputNotRecompiled(t: Toolchain, af: ArgFilter, w: World, hidden: bool, src: string)
    requires EndsWith(src, ".bc")
    ensures !Uses(FileStep(t, af, w, hidden, src).trace, BitcodeCompile)
    ensures var obj := af.artifactNames(src, hidden).0;
            var build := if hidden then ObjectStep(t, af, src, obj, w) else Step(None, []);
            FileStep(t, af, w, hidden, src) == Then(build, AttachBitcodePathToObject(w, src, obj))
  {
    var obj := af.artifactNames(src, hidden).0;
    var build := if hidden then ObjectStep(t, af, src, obj, w) else Step(None, []);
    var tools := {ObjectCompile, SectionEdit};
    AttachSpawnsEditOnly(w, src, obj);
    SpawnsOnlyAppend(build.trace, AttachBitcodePathToObject(w, src, obj).trace, tools);
    NotUsedOutside(FileStep(t, af, w, hidden, src).trace, tools, BitcodeCompile);
  }

  /** A Rust source hands over to the archive patcher: the sources after it
      are never looked at. */
  lemma {:induction false} RustSourceEndsLoop(t: Toolchain, af: ArgFilter, w: World, hidden: bool,
                                              src: string, more1: seq<string>, more2: seq<string>,
                                              objs: seq<string>, trace: seq<Action>)
    requires EndsWith(src, ".rs")
    ensures PerFile(t, af, w, hidden, [src] + more1, objs, trace) == PerFile(t, af, w, hidden, [src] + more2, objs, trace)
    ensures PerFile(t, af, w, hidden, [src] + more1, objs, trace) == PatchArchive(t, af, w, objs, trace)
  {
    assert ([src] + more1)[0] == src && ([src] + more2)[0] == src;
  }

  /** A world where every child process succeeds and every object is still there. */
  ghost predicate Healthy(w: World) {
    && (forall argv :: w.exitCode(argv) == 0)
    && (forall p :: w.size(p).Some?)
  }

  /** The objects the loop derives for linked sources, in input order. */
  function ObjectNames(af: ArgFilter, files: seq<string>): (r: seq<string>)
    ensures |r| == |files|
    decreases |files|
  {
    if files == [] then [] else [af.artifactNames(files[0], true).0] + ObjectNames(af, files[1..])
  }

  lemma {:induction false} HealthyAttachCarriesOn(w: World, bc: string, obj: string)
    requires Healthy(w)
    ensures AttachBitcodePathToObject(w, bc, obj).exit.None?
  {
    AttachContract(w, bc, obj);
    assert w.size(obj).Some?;
    assert w.exitCode(EditCommand(w, obj)) == 0;
  }

  /** With every step succeeding and no Rust source, the loop rebuilds one
      object per source, in order. */
  lemma {:induction false} HealthyLoopCollectsObjects(t: Toolchain, af: ArgFilter, w: World,
                                                      files: seq<string>, objs: seq<string>, trace: seq<Action>)
    requires Healthy(w)
    requires forall k | 0 <= k < |files| :: !EndsWith(files[k], ".rs")
    ensures PerFile(t, af, w, true, files, objs, trace).Going?
    ensures PerFile(t, af, w, true, files, objs, trace).objs == objs + ObjectNames(af, files)
    decreases |files|
  {
    if files == [] {
      assert objs + [] == objs;
    } else {
      var src := files[0];
      assert !EndsWith(src, ".rs");
      var (obj, bc) := af.artifactNames(src, true);
      HealthyAttachCarriesOn(w, src, obj);
      HealthyAttachCarriesOn(w, bc, obj);
      assert w.exitCode(ObjectCommand(t.cc, af.compileArgs, src, obj)) == 0;
      assert w.exitCode(BitcodeCommand(t.bcc, af.compileArgs, src, bc)) == 0;
      var next := NextFile(t, af, w, true, src, objs, trace);
      assert next.Going? && next.objs == objs + [obj];
      HealthyLoopCollectsObjects(t, af, w, files[1..], objs + [obj], next.trace);
      assert objs + [obj] + ObjectNames(af, files[1..]) == objs + ObjectNames(af, files);
    }
  }

  /** A linking build in a healthy world without Rust sources links exactly
      the rebuilt objects, in input order, and exits with 0. */
  lemma {:induction false} HealthyBuildLinksEveryObject(t: Toolchain, af: ArgFilter, w: World)
    requires Healthy(w) && !af.isCompileOnly
    requires forall k | 0 <= k < |af.inputFiles| :: !EndsWith(af.inputFiles[k], ".rs")
    ensures PhaseTwo(t, af, w).outcome == Exit(0)
    ensures var r := PhaseTwo(t, af, w);
            |r.trace| >= 1 && r.trace[|r.trace| - 1] == Spawn(Link, LinkArgv(t, af, ObjectNames(af, af.inputFiles)))
  {
    HealthyLoopCollectsObjects(t, af, w, af.inputFiles, [], []);
    assert [] + ObjectNames(af, af.inputFiles) == ObjectNames(af, af.inputFiles);
    LinkOnlyWhenNotCompileOnly(t, af, w);
    assert w.exitCode(LinkArgv(t, af, ObjectNames(af, af.inputFiles))) == 0;
  }

  // ---------------------------------------------------------------------
  // The compile-only single file

  /** With an explicit `-o`, the bitcode goes to the filter's bitcode name
      and its path is attached to the explicit output object. */
  lemma {:induction false} CompileOnlyAttachesToOutput(t: Toolchain, af: ArgFilter, w: World)
    requires SingleCompileOnly(af) && af.outputFilename.Some?
    requires w.exitCode(BitcodeCommand(t.bcc, af.compileArgs, af.inputFiles[0], af.bitcodeName)) == 0
    ensures var r := PhaseTwo(t, af, w);
            var bcc := BitcodeCommand(t.bcc, af.compileArgs, af.inputFiles[0], af.bitcodeName);
            && r.trace[0] == Spawn(BitcodeCompile, bcc)
            && OutputArg(bcc) == Some(af.bitcodeName)
            && r.trace[1..] == AttachBitcodePathToObject(w, af.bitcodeName, af.outputFilename.value).trace
            && (r.outcome == Exit(0) || r.outcome == Exit(-1))
  {
    var bcc := BitcodeCommand(t.bcc, af.compileArgs, af.inputFiles[0], af.bitcodeName);
    BitcodeCommandShape(t.bcc, af.compileArgs, af.inputFiles[0], af.bitcodeName);
    AttachContract(w, af.bitcodeName, af.outputFilename.value);
    var a := AttachBitcodePathToObject(w, af.bitcodeName, af.outputFilename.value);
    assert PhaseTwo(t, af, w).trace == [Spawn(BitcodeCompile, bcc)] + a.trace;
  }

  // ---------------------------------------------------------------------
  // The archive patcher

  /** The extracted members are those of `ms` whose extraction succeeded, in
      order, each kept as often as it is listed. */
  lemma {:induction false} ExtractedSpec(w: World, ar: seq<string>, archive: string, ms: seq<string>)
    ensures var r := Extracted(w, ar, archive, ms);
            && IsSubseq(r, ms)
            && (forall x :: x in r <==> x in ms && w.exitCode(ExtractCommand(ar, archive, x)) == 0)
            && (forall x :: multiset(r)[x] ==
                  if w.exitCode(ExtractCommand(ar, archive, x)) == 0 then multiset(ms)[x] else 0)
  {
    ExtractedOrder(w, ar, archive, ms);
    ExtractedCounts(w, ar, archive, ms);
  }

  lemma {:induction false} ExtractedOrder(w: World, ar: seq<string>, archive: string, ms: seq<string>)
    ensures var r := Extracted(w, ar, archive, ms);
            && IsSubseq(r, ms)
            && (forall x :: x in r <==> x in ms && w.exitCode(ExtractCommand(ar, archive, x)) == 0)
    decreases |ms|
  {
    if ms == [] {
    } else {
      var rest := Extracted(w, ar, archive, ms[1..]);
      ExtractedOrder(w, ar, archive, ms[1..]);
      assert ms == [ms[0]] + ms[1..];
      if w.exitCode(ExtractCommand(ar, archive, ms[0])) == 0 {
        var r := [ms[0]] + rest;
        assert r[0] == ms[0] && r[1..] == rest;
      } else {
        assert [] + rest == rest;
      }
    }
  }

  /** A member listed several times is kept once per listing when its
      extraction succeeds. */
  lemma {:induction false} ExtractedCounts(w: World, ar: seq<string>, archive: string, ms: seq<string>)
    ensures forall x :: multiset(Extracted(w, ar, archive, ms))[x] ==
              if w.exitCode(ExtractCommand(ar, archive, x)) == 0 then multiset(ms)[x] else 0
    decreases |ms|
  {
    if ms != [] {
      ExtractedCounts(w, ar, archive, ms[1..]);
      assert ms == [ms[0]] + ms[1..];
      assert multiset(ms) == multiset{ms[0]} + multiset(ms[1..]);
      var head := if w.exitCode(ExtractCommand(ar, archive, ms[0])) == 0 then [ms[0]] else [];
      assert multiset(Extracted(w, ar, archive, ms))
          == multiset(head) + multiset(Extracted(w, ar, archive, ms[1..]));
    }
  }

  /** ArObjectandAttachBitcode returns nothing when the archive cannot be
      listed; otherwise exactly the listed members whose names contain the
      crate name and whose extraction succeeded, in listing order. */
  lemma {:induction false} ArchiveScanResult(t: Toolchain, af: ArgFilter, w: World)
    ensures var list := ListCommand(t.ar, af.outputName);
            w.exitCode(list) != 0 ==> ArchiveScan(t, af, w) == Scan([], [Spawn(ArchiveList, list)])
    ensures var list := ListCommand(t.ar, af.outputName);
            var lines := w.stdoutLines(list);
            var r := ArchiveScan(t, af, w).members;
            w.exitCode(list) == 0 ==>
              && IsSubseq(r, lines)
              && (forall x :: x in r <==>
                    x in lines && Contains(x, af.cratename)
                    && w.exitCode(ExtractCommand(t.ar, af.outputName, x)) == 0)
              && (forall x :: multiset(r)[x] ==
                    if Contains(x, af.cratename) && w.exitCode(ExtractCommand(t.ar, af.outputName, x)) == 0
                    then multiset(lines)[x] else 0)
  {
    var list := ListCommand(t.ar, af.outputName);
    if w.exitCode(list) == 0 {
      var lines := w.stdoutLines(list);
      var matched := Matching(lines, af.cratename);
      MatchingSound(lines, af.cratename);
      MatchingExactly(lines, af.cratename);
      MatchingCounts(lines, af.cratename);
      ExtractedSpec(w, t.ar, af.outputName, matched);
      SubseqTrans(Extracted(w, t.ar, af.outputName, matched), matched, lines);
    }
  }

  /** The Rust branch collects every extracted member it attached to, in
      order, and stops at the first attachment that terminates. */
  lemma {:induction false} AttachMembersCollects(w: World, bc: string, ms: seq<string>, objs: seq<string>, trace: seq<Action>)
    ensures var p := AttachMembers(w, bc, ms, objs, trace);
            && trace <= p.trace
            && (p.Going? <==> forall k | 0 <= k < |ms| :: AttachBitcodePathToObject(w, bc, ms[k]).exit.None?)
            && (p.Going? ==> p.objs == objs + ms)
    decreases |ms|
  {
    if ms == [] {
      assert objs + [] == objs;
    } else {
      var a := AttachBitcodePathToObject(w, bc, ms[0]);
      AttachMembersCollects(w, bc, ms[1..], objs + [ms[0]], trace + a.trace);
      assert objs + [ms[0]] + ms[1..] == objs + ms;
      assert forall k | 1 <= k < |ms| :: ms[k] == ms[1..][k - 1];
    }
  }
}
