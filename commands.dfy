/** The argument vectors of the child processes the wrapper starts, as
    functions of their ingredients, and where each one writes its output. */
module Commands {
  import opened Common
  import opened Config
  import opened Text

  /** The command writes to the operand of its last `-o`, as compiler
      drivers and `ld` do. */
  function OutputArg(argv: seq<string>): (r: Option<string>)
    ensures r.Some? ==> r.value in argv
    decreases |argv|
  {
    if |argv| < 2 then None
    else if argv[|argv| - 2] == "-o" then Some(argv[|argv| - 1])
    else
      var r := OutputArg(argv[..|argv| - 1]);
      assert r.Some? ==> r.value in argv[..|argv| - 1];
      r
  }

  lemma {:induction false} OutputArgOfSuffix(head: seq<string>, out: string)
    ensures OutputArg(head + ["-o", out]) == Some(out)
  {
    var argv := head + ["-o", out];
    assert argv[|argv| - 2] == "-o" && argv[|argv| - 1] == out;
  }

  /** buildObjectFile: `rustc ... src --emit=obj -o obj` for Rust sources,
      `cc ... src -c -o obj` otherwise. */
  function ObjectCommand(cc: seq<string>, compileArgs: seq<string>, src: string, obj: string): seq<string> {
    cc + compileArgs + [src] + [if EndsWith(src, ".rs") then "--emit=obj" else "-c"] + ["-o", obj]
  }

  /** The object compile keeps the compiler and the compile arguments in
      front, names the source, and writes to `obj`. */
  lemma {:induction false} ObjectCommandShape(cc: seq<string>, compileArgs: seq<string>, src: string, obj: string)
    ensures var r := ObjectCommand(cc, compileArgs, src, obj);
            && cc + compileArgs + [src] <= r
            && |r| == |cc| + |compileArgs| + 4
            && r[|r| - 3] == (if EndsWith(src, ".rs") then "--emit=obj" else "-c")
            && OutputArg(r) == Some(obj)
  {
    OutputArgOfSuffix(cc + compileArgs + [src] + [if EndsWith(src, ".rs") then "--emit=obj" else "-c"], obj);
  }

  /** buildBitcodeFile: the bitcode compiler, the compile arguments, the
      source behind `--emit=llvm-bc` (Rust) or `-c`, and `-o bc`. */
  function BitcodeCommand(bcc: seq<string>, compileArgs: seq<string>, src: string, bc: string): seq<string> {
    bcc + compileArgs + [if EndsWith(src, ".rs") then "--emit=llvm-bc" else "-c", src] + ["-o", bc]
  }

  /** The bitcode compile keeps the bitcode compiler and the compile
      arguments in front and writes to `bc`, whatever `-o` the compile
      arguments carry, so it never clobbers the object of the native
      compile when the two names differ. */
  lemma {:induction false} BitcodeCommandShape(bcc: seq<string>, compileArgs: seq<string>, src: string, bc: string)
    ensures var r := BitcodeCommand(bcc, compileArgs, src, bc);
            && bcc + compileArgs <= r
            && |r| == |bcc| + |compileArgs| + 4
            && r[|r| - 4..|r| - 2] == [if EndsWith(src, ".rs") then "--emit=llvm-bc" else "-c", src]
            && OutputArg(r) == Some(bc)
  {
    var head := bcc + compileArgs + [if EndsWith(src, ".rs") then "--emit=llvm-bc" else "-c", src];
    OutputArgOfSuffix(head, bc);
  }

  /** linkFiles for a static library: `ar -rcs out objs... cmdlineObjs...`. */
  function ArchiveCommand(ar: seq<string>, out: string, objs: seq<string>, cmdlineObjs: seq<string>): seq<string> {
    ar + ["-rcs", out] + objs + cmdlineObjs
  }

  /** The archiver creates `out` from the new objects followed by the
      objects of the command line. */
  lemma {:induction false} ArchiveCommandShape(ar: seq<string>, out: string, objs: seq<string>, cmdlineObjs: seq<string>)
    ensures var r := ArchiveCommand(ar, out, objs, cmdlineObjs);
            && ar + ["-rcs", out] <= r
            && r[|ar| + 2..] == objs + cmdlineObjs
  {
    assert (ar + ["-rcs", out] + objs + cmdlineObjs)[|ar| + 2..] == objs + cmdlineObjs;
  }

  /** linkFiles otherwise: the compiler as link driver, every object, the
      link arguments, then `-o out`. */
  function LinkCommand(cc: seq<string>, objs: seq<string>, cmdlineObjs: seq<string>, linkArgs: seq<string>, out: string)
    : seq<string>
  {
    cc + objs + cmdlineObjs + linkArgs + ["-o", out]
  }

  /** The link driver sees every object before the link arguments and writes `out`. */
  lemma {:induction false} LinkCommandShape(cc: seq<string>, objs: seq<string>, cmdlineObjs: seq<string>, linkArgs: seq<string>, out: string)
    ensures var r := LinkCommand(cc, objs, cmdlineObjs, linkArgs, out);
            && cc + objs + cmdlineObjs + linkArgs <= r
            && |r| == |cc| + |objs| + |cmdlineObjs| + |linkArgs| + 2
            && OutputArg(r) == Some(out)
  {
    OutputArgOfSuffix(cc + objs + cmdlineObjs + linkArgs, out);
  }

  /** `ar t archive`: list the members. */
  function ListCommand(ar: seq<string>, archive: string): seq<string> {
    ar + ["t", archive]
  }

  /** `ar x archive member`: extract one member into the working directory. */
  function ExtractCommand(ar: seq<string>, archive: string, member: string): seq<string> {
    ar + ["x", archive, member]
  }

  const ElfSectionName := ".llvm_bc"
  const DarwinSegmentName := "__WLLVM"
  const DarwinSectionName := "__llvm_bc"

  /** `ld` or `objcopy`, prefixed by BINUTILS_TARGET_PREFIX and a dash when one is set. */
  function BinTool(targetPrefix: Option<string>, tool: string): (r: string)
    ensures Truthy(targetPrefix) ==> r == targetPrefix.value + "-" + tool
    ensures !Truthy(targetPrefix) ==> r == tool
  {
    if Truthy(targetPrefix) then targetPrefix.value + "-" + tool else tool
  }

  /** The section-editing command of attachBitcodePathToObject: on Darwin an
      `ld -r` that adds segment __WLLVM, section __llvm_bc and writes the
      object over itself; elsewhere `objcopy --add-section .llvm_bc=<scratch>`
      editing the object in place. */
  function AttachCommand(targetPrefix: Option<string>, darwin: bool, scratch: string, obj: string): (r: seq<string>)
    ensures darwin ==> r == [BinTool(targetPrefix, "ld"), "-r", "-keep_private_externs", obj,
                             "-sectcreate", DarwinSegmentName, DarwinSectionName, scratch, "-o", obj]
    ensures !darwin ==> r == [BinTool(targetPrefix, "objcopy"), "--add-section", ElfSectionName + "=" + scratch, obj]
    ensures r[|r| - 1] == obj
    ensures darwin ==> OutputArg(r) == Some(obj)
  {
    if darwin then
      var head := [BinTool(targetPrefix, "ld"), "-r", "-keep_private_externs", obj,
                   "-sectcreate", DarwinSegmentName, DarwinSectionName, scratch];
      OutputArgOfSuffix(head, obj);
      head + ["-o", obj]
    else
      [BinTool(targetPrefix, "objcopy"), "--add-section", ElfSectionName + "=" + scratch, obj]
  }
}
