/** Fatal exits of phase two: a step that fails ends the process with that
    step's status (or -1 for a failed section edit), and nothing is started
    after it; only the scratch file is still removed. */
module Failures {
  import opened Common
  import opened Config
  import opened Host
  import opened Text
  import opened Builders
  import opened Commands
  import opened Attach
  import opened Phases
  import opened Properties

  /** The trace ends with a failed child process whose status explains the
      exit code `c`, followed by nothing but scratch-file removals. */
  ghost predicate EndsInFailure(w: World, trace: seq<Action>, c: int) {
    exists k | 0 <= k < |trace| ::
      && trace[k].Spawn?
      && w.exitCode(trace[k].argv) != 0
      && (c == w.exitCode(trace[k].argv) || (trace[k].tool == SectionEdit && c == -1))
      && forall j | k < j < |trace| :: trace[j].RemoveScratch?
  }

  /** A step that terminates with a non-zero code does so because of its
      last child process. */
  ghost predicate StepFailsLast(w: World, s: Step) {
    s.exit.Some? && s.exit.value != 0 ==> EndsInFailure(w, s.trace, s.exit.value)
  }

  ghost predicate StopsLast(w: World, p: Progress) {
    p.Stopped? && p.code != 0 ==> EndsInFailure(w, p.trace, p.code)
  }

  lemma {:induction false} EndsInFailurePrefix(w: World, pre: seq<Action>, trace: seq<Action>, c: int)
    requires EndsInFailure(w, trace, c)
    ensures EndsInFailure(w, pre + trace, c)
  {
    var k :| 0 <= k < |trace| && trace[k].Spawn? && w.exitCode(trace[k].argv) != 0
             && (c == w.exitCode(trace[k].argv) || (trace[k].tool == SectionEdit && c == -1))
             && forall j | k < j < |trace| :: trace[j].RemoveScratch?;
    var all := pre + trace;
    assert all[|pre| + k] == trace[k];
    forall j | |pre| + k < j < |all| ensures all[j].RemoveScratch? {
      assert all[j] == trace[j - |pre|];
    }
  }

  lemma {:induction false} RunToolFailsLast(tool: Tool, argv: seq<string>, w: World)
    ensures StepFailsLast(w, RunTool(tool, argv, w))
  {
    var s := RunTool(tool, argv, w);
    if s.exit.Some? && s.exit.value != 0 {
      assert s.trace[0] == Spawn(tool, argv);
    }
  }

  /** A failed attachment is a failed section edit, followed only by the
      removal of the scratch file; a vanished object exits with 0. */
  lemma {:induction false} AttachFailsLast(w: World, bc: string, obj: string)
    ensures StepFailsLast(w, AttachBitcodePathToObject(w, bc, obj))
  {
    var s := AttachBitcodePathToObject(w, bc, obj);
    if s.exit.Some? && s.exit.value != 0 {
      var write := [WriteScratch(w.scratchName, Payload(w, bc))];
      var slot := StoreSlot(w, bc);
      var copy := if slot.Some? then [CopyToStore(w.absPath(bc), slot.value)] else [];
      var cmd := EditCommand(w, obj);
      var k := |write + copy|;
      assert s.trace == write + copy + [Spawn(SectionEdit, cmd)] + [RemoveScratch(w.scratchName)];
      assert s.trace[k] == Spawn(SectionEdit, cmd);
      assert |s.trace| == k + 2 && s.trace[k + 1].RemoveScratch?;
    }
  }

  lemma {:induction false} ThenFailsLast(w: World, first: Step, second: Step)
    requires StepFailsLast(w, first) && StepFailsLast(w, second)
    ensures StepFailsLast(w, Then(first, second))
  {
    if first.exit.None? && second.exit.Some? && second.exit.value != 0 {
      EndsInFailurePrefix(w, first.trace, second.trace, second.exit.value);
    }
  }

  lemma {:induction false} FileStepFailsLast(t: Toolchain, af: ArgFilter, w: World, hidden: bool, src: string)
    ensures StepFailsLast(w, FileStep(t, af, w, hidden, src))
  {
    var (obj, bc) := af.artifactNames(src, hidden);
    RunToolFailsLast(ObjectCompile, ObjectCommand(t.cc, af.compileArgs, src, obj), w);
    RunToolFailsLast(BitcodeCompile, BitcodeCommand(t.bcc, af.compileArgs, src, bc), w);
    AttachFailsLast(w, src, obj);
    AttachFailsLast(w, bc, obj);
    var build := if hidden then ObjectStep(t, af, src, obj, w) else Step(None, []);
    ThenFailsLast(w, BitcodeStep(t, af, src, bc, w), AttachBitcodePathToObject(w, bc, obj));
    var rest := if EndsWith(src, ".bc") then AttachBitcodePathToObject(w, src, obj)
                else Then(BitcodeStep(t, af, src, bc, w), AttachBitcodePathToObject(w, bc, obj));
    ThenFailsLast(w, build, rest);
  }

  lemma {:induction false} AttachMembersStopsLast(w: World, bc: string, ms: seq<string>, objs: seq<string>,
                                                  trace: seq<Action>)
    ensures StopsLast(w, AttachMembers(w, bc, ms, objs, trace))
    decreases |ms|
  {
    if ms != [] {
      var a := AttachBitcodePathToObject(w, bc, ms[0]);
      AttachFailsLast(w, bc, ms[0]);
      if a.exit.Some? {
        if a.exit.value != 0 {
          EndsInFailurePrefix(w, trace, a.trace, a.exit.value);
        }
      } else {
        AttachMembersStopsLast(w, bc, ms[1..], objs + [ms[0]], trace + a.trace);
      }
    }
  }

  lemma {:induction false} PerFileStopsLast(t: Toolchain, af: ArgFilter, w: World, hidden: bool,
                                            files: seq<string>, objs: seq<string>, trace: seq<Action>)
    ensures StopsLast(w, PerFile(t, af, w, hidden, files, objs, trace))
    decreases |files|
  {
    if files == [] {
    } else if EndsWith(files[0], ".rs") {
      var scan := ArchiveScan(t, af, w);
      AttachMembersStopsLast(w, af.outputBCname, scan.members, objs, trace + scan.trace);
    } else {
      var s := FileStep(t, af, w, hidden, files[0]);
      FileStepFailsLast(t, af, w, hidden, files[0]);
      PerFileNext(t, af, w, hidden, files, objs, trace);
      var n := NextFile(t, af, w, hidden, files[0], objs, trace);
      if n.Stopped? {
        if n.code != 0 {
          EndsInFailurePrefix(w, trace, s.trace, s.exit.value);
        }
      } else {
        PerFileStopsLast(t, af, w, hidden, files[1..], n.objs, n.trace);
      }
    }
  }

  lemma {:induction false} PhaseTwoBodyStopsLast(t: Toolchain, af: ArgFilter, w: World)
    ensures StopsLast(w, PhaseTwoBody(t, af, w))
  {
    if SingleCompileOnly(af) {
      var (obj, bc) := CompileOnlyNames(af);
      RunToolFailsLast(BitcodeCompile, BitcodeCommand(t.bcc, af.compileArgs, af.inputFiles[0], bc), w);
      AttachFailsLast(w, bc, obj);
      ThenFailsLast(w, BitcodeStep(t, af, af.inputFiles[0], bc, w), AttachBitcodePathToObject(w, bc, obj));
    } else {
      PerFileStopsLast(t, af, w, !af.isCompileOnly, af.inputFiles, [], []);
    }
  }

  // ---------------------------------------------------------------------
  // The other direction: every failed compile, edit or link ends the run

  /** The child processes whose failure phase two turns into an exit; the
      archive listing and extractions are only logged when they fail. */
  const FatalTools: set<Tool> := {ObjectCompile, BitcodeCompile, SectionEdit, Link}

  /** `trace[k]` is a fatal child process that failed. */
  ghost predicate FailedAt(w: World, trace: seq<Action>, k: int) {
    && 0 <= k < |trace|
    && trace[k].Spawn? && trace[k].tool in FatalTools
    && w.exitCode(trace[k].argv) != 0
  }

  ghost predicate Clean(w: World, trace: seq<Action>) {
    forall k | 0 <= k < |trace| :: !FailedAt(w, trace, k)
  }

  /** Only scratch-file removals follow position `k`. */
  ghost predicate OnlyCleanupAfter(trace: seq<Action>, k: int) {
    forall j | 0 <= j < |trace| && k < j :: trace[j].RemoveScratch?
  }

  /** Every fatal failure in the step's trace terminated it with a non-zero
      code, and nothing but cleanup came after. */
  ghost predicate StepSurfaces(w: World, s: Step) {
    forall k | FailedAt(w, s.trace, k) :: s.exit.Some? && s.exit.value != 0 && OnlyCleanupAfter(s.trace, k)
  }

  ghost predicate ProgressSurfaces(w: World, p: Progress) {
    forall k | FailedAt(w, p.trace, k) :: p.Stopped? && p.code != 0 && OnlyCleanupAfter(p.trace, k)
  }

  /** Behind a clean prefix, the failures of `a + b` are those of `b`. */
  lemma {:induction false} ShiftFailures(w: World, a: seq<Action>, b: seq<Action>)
    requires Clean(w, a)
    ensures forall k | FailedAt(w, a + b, k) ::
              FailedAt(w, b, k - |a|) && (OnlyCleanupAfter(b, k - |a|) ==> OnlyCleanupAfter(a + b, k))
    ensures Clean(w, b) ==> Clean(w, a + b)
  {
    forall k | FailedAt(w, a + b, k)
      ensures FailedAt(w, b, k - |a|) && (OnlyCleanupAfter(b, k - |a|) ==> OnlyCleanupAfter(a + b, k))
    {
      if k < |a| {
        assert (a + b)[k] == a[k];
        assert FailedAt(w, a, k);
      }
      assert (a + b)[k] == b[k - |a|];
      if OnlyCleanupAfter(b, k - |a|) {
        forall j | 0 <= j < |a + b| && k < j ensures (a + b)[j].RemoveScratch? {
          assert (a + b)[j] == b[j - |a|];
        }
      }
    }
  }

  lemma {:induction false} RunToolSurfaces(tool: Tool, argv: seq<string>, w: World)
    ensures StepSurfaces(w, RunTool(tool, argv, w))
  {
  }

  /** A failed section edit exits with -1 right before the scratch file is
      removed. */
  lemma {:induction false} AttachSurfaces(w: World, bc: string, obj: string)
    ensures StepSurfaces(w, AttachBitcodePathToObject(w, bc, obj))
  {
    var s := AttachBitcodePathToObject(w, bc, obj);
    if Attachable(w.fileType(obj)) {
      var write := [WriteScratch(w.scratchName, Payload(w, bc))];
      var slot := StoreSlot(w, bc);
      var copy := if slot.Some? then [CopyToStore(w.absPath(bc), slot.value)] else [];
      var cleanup := [RemoveScratch(w.scratchName)];
      var pre := write + copy;
      assert forall i | 0 <= i < |pre| :: !pre[i].Spawn?;
      if w.size(obj).Some? && w.size(obj).value > 0 {
        var cmd := EditCommand(w, obj);
        assert s.trace == pre + [Spawn(SectionEdit, cmd)] + cleanup;
        forall k | FailedAt(w, s.trace, k)
          ensures s.exit.Some? && s.exit.value != 0 && OnlyCleanupAfter(s.trace, k)
        {
          assert k != |pre| + 1;
          assert k == |pre|;
        }
      } else {
        assert s.trace == pre + cleanup;
        forall k | 0 <= k < |s.trace| ensures !FailedAt(w, s.trace, k) {
          if k < |pre| { assert s.trace[k] == pre[k]; }
        }
      }
    }
  }

  lemma {:induction false} ThenSurfaces(w: World, first: Step, second: Step)
    requires StepSurfaces(w, first) && StepSurfaces(w, second)
    ensures StepSurfaces(w, Then(first, second))
  {
    if first.exit.None? {
      ShiftFailures(w, first.trace, second.trace);
    }
  }

  lemma {:induction false} FileStepSurfaces(t: Toolchain, af: ArgFilter, w: World, hidden: bool, src: string)
    ensures StepSurfaces(w, FileStep(t, af, w, hidden, src))
  {
    var (obj, bc) := af.artifactNames(src, hidden);
    RunToolSurfaces(ObjectCompile, ObjectCommand(t.cc, af.compileArgs, src, obj), w);
    RunToolSurfaces(BitcodeCompile, BitcodeCommand(t.bcc, af.compileArgs, src, bc), w);
    AttachSurfaces(w, src, obj);
    AttachSurfaces(w, bc, obj);
    var build := if hidden then ObjectStep(t, af, src, obj, w) else Step(None, []);
    ThenSurfaces(w, BitcodeStep(t, af, src, bc, w), AttachBitcodePathToObject(w, bc, obj));
    var rest := if EndsWith(src, ".bc") then AttachBitcodePathToObject(w, src, obj)
                else Then(BitcodeStep(t, af, src, bc, w), AttachBitcodePathToObject(w, bc, obj));
    ThenSurfaces(w, build, rest);
  }

  lemma {:induction false} AttachMembersSurfaces(w: World, bc: string, ms: seq<string>, objs: seq<string>,
                                                 trace: seq<Action>)
    requires Clean(w, trace)
    ensures ProgressSurfaces(w, AttachMembers(w, bc, ms, objs, trace))
    decreases |ms|
  {
    if ms != [] {
      var a := AttachBitcodePathToObject(w, bc, ms[0]);
      AttachSurfaces(w, bc, ms[0]);
      ShiftFailures(w, trace, a.trace);
      if a.exit.None? {
        AttachMembersSurfaces(w, bc, ms[1..], objs + [ms[0]], trace + a.trace);
      }
    }
  }

  /** Listing and extracting archive members never fails fatally. */
  lemma {:induction false} ScanClean(t: Toolchain, af: ArgFilter, w: World)
    ensures Clean(w, ArchiveScan(t, af, w).trace)
  {
    ArchiveScanSpawns(t, af, w);
  }

  lemma {:induction false} PerFileSurfaces(t: Toolchain, af: ArgFilter, w: World, hidden: bool,
                                           files: seq<string>, objs: seq<string>, trace: seq<Action>)
    requires Clean(w, trace)
    ensures ProgressSurfaces(w, PerFile(t, af, w, hidden, files, objs, trace))
    decreases |files|
  {
    if files == [] {
    } else if EndsWith(files[0], ".rs") {
      var scan := ArchiveScan(t, af, w);
      ScanClean(t, af, w);
      ShiftFailures(w, trace, scan.trace);
      AttachMembersSurfaces(w, af.outputBCname, scan.members, objs, trace + scan.trace);
    } else {
      var s := FileStep(t, af, w, hidden, files[0]);
      FileStepSurfaces(t, af, w, hidden, files[0]);
      ShiftFailures(w, trace, s.trace);
      PerFileNext(t, af, w, hidden, files, objs, trace);
      var n := NextFile(t, af, w, hidden, files[0], objs, trace);
      if n.Going? {
        PerFileSurfaces(t, af, w, hidden, files[1..], n.objs, n.trace);
      }
    }
  }

  lemma {:induction false} PhaseTwoBodySurfaces(t: Toolchain, af: ArgFilter, w: World)
    ensures ProgressSurfaces(w, PhaseTwoBody(t, af, w))
  {
    if SingleCompileOnly(af) {
      var (obj, bc) := CompileOnlyNames(af);
      RunToolSurfaces(BitcodeCompile, BitcodeCommand(t.bcc, af.compileArgs, af.inputFiles[0], bc), w);
      AttachSurfaces(w, bc, obj);
      ThenSurfaces(w, BitcodeStep(t, af, af.inputFiles[0], bc, w), AttachBitcodePathToObject(w, bc, obj));
    } else {
      PerFileSurfaces(t, af, w, !af.isCompileOnly, af.inputFiles, [], []);
    }
  }

  lemma {:induction false} PhaseTwoSurfaces(t: Toolchain, af: ArgFilter, w: World)
    ensures var r := PhaseTwo(t, af, w);
            forall k | FailedAt(w, r.trace, k) :: r.outcome.code != 0 && OnlyCleanupAfter(r.trace, k)
  {
    PhaseTwoBodySurfaces(t, af, w);
    var p := PhaseTwoBody(t, af, w);
    if p.Going? && !af.isCompileOnly {
      var l := LinkStep(t, af, p.objs, w);
      RunToolSurfaces(Link, LinkArgv(t, af, p.objs), w);
      ShiftFailures(w, p.trace, l.trace);
    }
  }

  /** Any phase-two tool that fails is fatal, in both directions: a failed
      compile, section edit or link makes phase two exit with a non-zero
      code, and after it only the scratch file is removed; conversely a
      non-zero exit is the status of the last child process it started (or
      -1 when that was a failed section edit). */
  lemma {:induction false} PhaseTwoFailsFatally(t: Toolchain, af: ArgFilter, w: World)
    ensures var r := PhaseTwo(t, af, w);
            r.outcome.code != 0 ==> EndsInFailure(w, r.trace, r.outcome.code)
    ensures var r := PhaseTwo(t, af, w);
            forall k | FailedAt(w, r.trace, k) :: r.outcome.code != 0 && OnlyCleanupAfter(r.trace, k)
  {
    PhaseTwoSurfaces(t, af, w);
    PhaseTwoBodyStopsLast(t, af, w);
    var p := PhaseTwoBody(t, af, w);
    if p.Going? && !af.isCompileOnly {
      var l := LinkStep(t, af, p.objs, w);
      RunToolFailsLast(Link, LinkArgv(t, af, p.objs), w);
      if l.exit.Some? {
        EndsInFailurePrefix(w, p.trace, l.trace, l.exit.value);
      }
    }
  }

  /** The same for a whole invocation: a failed compile, edit or link always
      ends it with a non-zero exit and nothing but cleanup after it (the
      native compile of phase one is not among them: its failure is
      returned); apart from the ccache guard's -1, every non-zero exit is a
      failed child process with nothing started after it. */
  lemma {:induction false} InvocationFailsFatally(mode: string, args: seq<string>, w: World)
    ensures var r := Invocation(mode, args, w);
            r.outcome.Exit? && r.outcome.code != 0 && !w.parentIsCcache ==>
              EndsInFailure(w, r.trace, r.outcome.code)
    ensures var r := Invocation(mode, args, w);
            forall k | FailedAt(w, r.trace, k) :: r.outcome.Exit? && r.outcome.code != 0 && OnlyCleanupAfter(r.trace, k)
  {
    var r := Invocation(mode, args, w);
    if !w.parentIsCcache && r.trace != [] && !(r.outcome.Return? && |r.trace| == 1) {
      var res := Resolve(mode, w.env, w.onDisk).value;
      var af := w.classify(FlavorOf(res.kind), args);
      var t := ToolchainFor(res.kind, mode, res.prefixPath, w).value;
      var native := NativeCommand(t, af, args).value;
      PhaseTwoSurfaces(t, af, w);
      ShiftFailures(w, [Spawn(NativeCompile, native)], PhaseTwo(t, af, w).trace);
    }
    if r.outcome.Exit? && !w.parentIsCcache {
      var res := Resolve(mode, w.env, w.onDisk).value;
      var af := w.classify(FlavorOf(res.kind), args);
      var t := ToolchainFor(res.kind, mode, res.prefixPath, w).value;
      var native := NativeCommand(t, af, args).value;
      PhaseTwoFailsFatally(t, af, w);
      var p := PhaseTwo(t, af, w);
      if p.outcome.code != 0 {
        EndsInFailurePrefix(w, [Spawn(NativeCompile, native)], p.trace, p.outcome.code);
      }
    }
  }
}
