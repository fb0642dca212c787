# wllvm compiler wrapper: the build orchestration of `compilers.py`

wllvm stands in for a C, C++, Fortran or Rust compiler. It builds what the
caller asked for and, next to each object, an LLVM bitcode file, then writes
the bitcode's absolute path into a dedicated section of the object, so that
whole-program bitcode can be recovered from the final binary later. This
project models the decision and command-construction core of
`wllvm/compilers.py` and proves properties of it. That core covers:

- backend selection from the environment (Clang, Dragonegg or Rustc);
- prefix normalisation and program naming;
- the argument vectors of every child process;
- the attachment of bitcode paths;
- the Rust static-library patcher;
- the `wcompile` / `buildAndAttachBitcode` state machine.

Layout, one module per component:

- `common.dfy`: `Option`, `Result`, and the terminal `Outcome`. `Return(rc)` is the
  value `wcompile` returns; `Exit(code)` is a `sys.exit`.
- `config.dfy`: the environment variables read as an immutable `Env` record,
  Python's truthiness of `os.getenv`, and `getenv(x) or default`.
- `text.dfy`: `endswith`, the substring test `in`, and `str.split()`, with the
  split/join round trip.
- `host.dfy`: the `World` of oracles, which holds:
  - the exit status of each child process, deterministic in its argv;
  - the `ar t` output lines;
  - the file-type detector;
  - `getsize`, where a missing object makes it raise;
  - `abspath`, the scratch file's name and SHA-256;
  - the ccache parent check, as a boolean;
  - the argument-list classifier, treated as a function from the command line to the filter record.

  What a run does to the outside is a trace of `Action`s: child processes
  tagged by purpose, the scratch-file write, the copy into `WLLVM_BC_STORE`,
  and the scratch-file removal.
- `builders.dfy`:
  - `getBuilder` and the constructor's prefix check;
  - `getCompiler`, `getBitcodeCompiler` and `getLLVM_ar` for each backend;
  - the `Builder` class, whose `cmd` field `getCommand` strips in place and whose `af` field memoises the filter.
- `commands.dfy`: the exact shapes of the object, bitcode, archive, link,
  list, extract and section-editing commands.
- `attach.dfy`: `getHashedPathName` and `attachBitcodePathToObject`.
- `phases.dfy`:
  - every step as a function of the world (`ObjectStep`, `PerFile`, `PhaseTwo`, `Invocation`, ...);
  - the imperative procedures (`BuildObject`, `BuildObjectFile`, `BuildBitcodeFile`, `LinkFiles`, `ArObjectAndAttachBitcode`, `BuildAndAttachBitcode`, `WCompile`). These build their commands step by step through the builder and are proved to equal those functions.
- `properties.dfy`: properties of whole runs.
- `failures.dfy`: fatal exits of phase two: every failed compile, edit or link ends the run, and every non-zero exit is traced back to the child process that failed.

Exceptions follow the source. Any exception raised inside `wcompile`'s `try`
before phase two leaves `rc` at 1, so it becomes `Return(1)`. These include
an unknown compiler, a missing prefix, an unknown mode, and a forbidden
argument that is absent. `sys.exit` is not an `Exception`, so every exit in
phase two propagates, and phase two always ends in `Exit`.

## Model

| member | source | states |
|---|---|---|
| Text.Split | wllvm/compilers.py:224-227 | every piece `split()` returns is non-empty and whitespace-free; the result is empty exactly when the text is all whitespace |
| Text.SplitJoinRoundTrip | wllvm/compilers.py:224-227 | splitting tokens joined by single spaces gives back exactly those tokens |
| Text.SkipSpaceRun | wllvm/compilers.py:224-227 | leading whitespace of any length and kind is skipped up to the first other character |
| Text.SplitPeel | wllvm/compilers.py:224-227 | the first piece is the first maximal whitespace-free run, whatever whitespace precedes it, and splitting continues right after it; with the all-whitespace case this fixes the result on every input |
| Builders.WithTrailingSep | wllvm/compilers.py:196-197 | the result ends in a separator: one is appended exactly when the path does not already end in one, and the path is otherwise kept unchanged as the prefix of the result |
| Builders.WithTrailingSepIdempotent | wllvm/compilers.py:196-197 | normalising an already normalised prefix changes nothing |
| Builders.NormalizePrefix | wllvm/compilers.py:193-205 | an unset or empty prefix gives `''`; a set prefix gives itself with a trailing separator when that path exists, and the missing-path error otherwise |
| Builders.CompilerFor | wllvm/compilers.py:233-296 | `getCompiler` succeeds exactly for the modes the backend supports and returns one program under the prefix; other modes raise the unknown-mode error (the names themselves are stated by the three lemmas below) |
| Builders.DefaultProgramNames | wllvm/compilers.py:233-296 | each mode keeps its default program (clang, clang++, flang; rustc for `wllvmrs`) whenever its own override is unset or empty, whatever the other overrides say; Dragonegg uses gcc, g++, gfortran whenever `LLVM_GCC_PREFIX` is unset |
| Builders.OverrideReplacesDefault | wllvm/compilers.py:233-296 | a set `LLVM_CC_NAME`, `LLVM_CXX_NAME`, `LLVM_F77_NAME` or `LLVM_RUSTC_NAME` replaces the default name of its mode in full, whatever the other overrides say |
| Builders.GccPrefixPrepended | wllvm/compilers.py:260-273 | Dragonegg puts `LLVM_GCC_PREFIX` between the prefix and gcc, g++ or gfortran whenever it is set, even to the empty string, and ignores the name overrides |
| Builders.BitcodeFlags | wllvm/compilers.py:221-227 | the extra flags are the whitespace split of `LLVM_BITCODE_GENERATION_FLAGS`, and none when it is unset or empty |
| Builders.BitcodeCompilerFor | wllvm/compilers.py:229-290 | the bitcode compiler is the native compiler followed by `-emit-llvm` or `--emit=llvm-bc` and the extra flags; for Dragonegg the compiler is followed instead by `-B asDir`, the plugin, and `-fplugin-arg-dragonegg-emit-ir`, with no emit flag and no extra flags |
| Builders.NoExtraFlagsNoSuffix | wllvm/compilers.py:221-231 | without extra flags the bitcode compiler is the native one plus the emit flag only |
| Builders.ExtraFlagsVerbatim | wllvm/compilers.py:281-290 | space-separated extra flags reach the bitcode command verbatim and in order |
| Builders.LlvmArFor | wllvm/compilers.py:216-217 | the archiver is one program under the same prefix: `LLVM_AR_NAME` when it is set and non-empty, `llvm-ar` otherwise |
| Builders.Select | wllvm/compilers.py:302-330 | Rustc iff `wllvmrs` with mixed compiler `rustc`; else Clang iff `LLVM_COMPILER` is clang; else Dragonegg iff dragonegg; Rustc takes `RUSTC_PATH` and the others `LLVM_COMPILER_PATH`; otherwise it raises the no-compiler or invalid-compiler error |
| Builders.SelectFailsIff | wllvm/compilers.py:314-330 | selection raises exactly when none of the three backends applies |
| Builders.RemoveFirstSpec | wllvm/compilers.py:213 | `list.remove(x)` drops exactly one occurrence of `x`: the length falls by one, the multiset loses one `x`, and the order of the rest is kept |
| Builders.RemoveEachSucceeds | wllvm/compilers.py:207-214 | stripping succeeds iff every forbidden argument, counted with multiplicity, is present; an empty forbidden list changes nothing |
| Builders.RemoveEachCounts | wllvm/compilers.py:207-214 | a successful stripping removes exactly one occurrence of each forbidden argument and nothing else |
| Builders.RemoveEachLength | wllvm/compilers.py:207-214 | a successful stripping shortens the argument list by the number of forbidden arguments |
| Builders.RemoveEachOrder | wllvm/compilers.py:207-214 | whatever the outcome, the arguments that survive keep their relative order |
| Builders.Builder.GetBitcodeArglistFilter | wllvm/compilers.py:244-300 | the first call classifies the current command, with the classifier variant that keeps the `-o` name for Clang and the plain one for Dragonegg and Rustc, and memoises it; later calls return the memo |
| Builders.Builder.GetCommand | wllvm/compilers.py:207-214 | without a filter the command is unchanged; with one, the new command is the stripped command, or the error when a forbidden argument is absent |
| Builders.GetBuilder | wllvm/compilers.py:187-330 | yields a fresh builder, with no filter and the caller's command, exactly when backend selection succeeds and the selected prefix normalises (an existing directory, or none); it carries the selected backend and the normalised prefix, and otherwise the selection or missing-prefix error |
| Commands.ObjectCommandShape | wllvm/compilers.py:475-489 | compiler, compile arguments and source, then `--emit=obj` for a `.rs` source or `-c`, then `-o obj` |
| Commands.BitcodeCommandShape | wllvm/compilers.py:453-467 | bitcode compiler and compile arguments, then `--emit=llvm-bc src` or `-c src`, then `-o bc`; the last `-o` is `bc` whatever the compile arguments hold, so the bitcode step never writes the native object when the names differ |
| Commands.ArchiveCommandShape | wllvm/compilers.py:434-438 | the static-library link is `ar -rcs out`, then the new objects, then the command line's objects |
| Commands.LinkCommandShape | wllvm/compilers.py:440-445 | otherwise the compiler, every object, the link arguments, and finally `-o out` |
| Commands.AttachCommand | wllvm/compilers.py:154-160 | on Darwin `ld -r -keep_private_externs obj -sectcreate __WLLVM __llvm_bc tmp -o obj`; elsewhere `objcopy --add-section .llvm_bc=tmp obj` |
| Attach.HashedPathName | wllvm/compilers.py:116-117 | no name for a missing or empty path, the SHA-256 digest of the path otherwise |
| Attach.Payload | wllvm/compilers.py:140-143 | the section payload is the absolute bitcode path followed by one newline |
| Attach.AttachContract | wllvm/compilers.py:120-184 | it is a no-op for anything but a relocatable object; it writes the payload first and always removes the scratch file last; with `WLLVM_BC_STORE` set it copies the bitcode to the store under the hash of its absolute path, and with it unset or empty it copies nothing; it edits only a non-empty object, with that edit as its only child process; a vanished object exits 0 and a failed edit exits -1 |
| Attach.ScratchAlwaysRemoved | wllvm/compilers.py:171-180 | whenever the scratch file was written it is removed again |
| Attach.StoreSlotStable | wllvm/compilers.py:165-169 | the same absolute bitcode path always lands in the same store slot |
| Phases.ToolchainFor | wllvm/compilers.py:229-296 | the backend's three programs exist exactly when its mode is supported |
| Phases.MatchingSound | wllvm/compilers.py:354 | every kept listing line contains the crate name, and the kept lines are in listing order |
| Phases.MatchingExactly | wllvm/compilers.py:354 | a line is kept exactly when it is listed and contains the crate name |
| Phases.MatchingCounts | wllvm/compilers.py:354 | a name that contains the crate name is kept once per time it is listed, any other name never |
| Phases.ExtractedAppend | wllvm/compilers.py:356-370 | the extraction loop over a concatenation is the loop over each part in turn |
| Phases.ExtractTraceAppend | wllvm/compilers.py:356-365 | likewise for the extraction commands started |
| Phases.PhaseTwo | wllvm/compilers.py:375-429 | phase two always ends the process with an exit |
| Failures.AttachFailsLast | wllvm/compilers.py:171-184 | a non-zero exit of an attachment is a failed section edit, exiting with -1, followed only by the scratch-file removal |
| Failures.FileStepFailsLast | wllvm/compilers.py:411-422 | a loop turn that terminates with a non-zero code does so at its last child process, which failed |
| Failures.PerFileStopsLast | wllvm/compilers.py:400-422 | the per-file loop stops with a non-zero code only at a failed child process, after which nothing else is started |
| Failures.PhaseTwoFailsFatally | wllvm/compilers.py:375-429 | any phase-two tool that fails is fatal, both ways: a failed object compile, bitcode compile, section edit or link makes phase two exit with a non-zero code, with only the scratch-file removal after it; and a non-zero exit is the status of the last child process started, or -1 for a failed section edit |
| Failures.InvocationFailsFatally | wllvm/compilers.py:21-72 | for a whole invocation, a failed compile, edit or link always ends it with a non-zero exit and nothing but cleanup after it; apart from the ccache guard, every non-zero exit is such a failed child process |
| Phases.BuildObject | wllvm/compilers.py:332-338 | the native command is the compiler followed by the stripped command; it is not run when `getCompiler` or `getCommand` raises |
| Phases.BuildObjectFile | wllvm/compilers.py:475-495 | the command is built step by step and equals `ObjectStep`, including exiting with a non-zero status |
| Phases.BuildBitcodeFile | wllvm/compilers.py:453-473 | equals `BitcodeStep` |
| Phases.LinkFiles | wllvm/compilers.py:431-450 | equals `LinkStep`: the archiver for a static library, the compiler otherwise |
| Phases.ArObjectAndAttachBitcode | wllvm/compilers.py:340-372 | the list and extraction loop equals `ArchiveScan` |
| Phases.ExtractMatching | wllvm/compilers.py:356-370 | the extraction loop over the matched members yields exactly the members `Extracted` keeps and the processes `ExtractTrace` lists |
| Phases.AttachEach | wllvm/compilers.py:406-409 | the attach-and-collect loop equals `AttachMembers` |
| Phases.CompileAndAttach | wllvm/compilers.py:411-422 | the loop body for a source that is not Rust equals `FileStep` |
| Phases.CompileOnly | wllvm/compilers.py:382-396 | the single compile-only file equals `CompileOnlyStep` |
| Phases.PatchOutputArchive | wllvm/compilers.py:403-410 | the Rust branch equals `PatchArchive` |
| Phases.NextInputFile | wllvm/compilers.py:411-422 | one turn of the loop equals `NextFile` |
| Phases.EachInputFile | wllvm/compilers.py:400-422 | the per-file loop, with its early `break`, equals `PerFile` |
| Phases.BuildAndAttachBitcode | wllvm/compilers.py:375-429 | the procedure equals `PhaseTwo` |
| Phases.WCompile | wllvm/compilers.py:21-72 | the procedure equals `Invocation`: the ccache guard, builder, filter, native compile, skip check and phase two |
| Properties.ReturnsOnlyFromPhaseOne | wllvm/compilers.py:36-72 | a return means phase two never ran: rc is 1 with nothing started, or the native status with only the native compile started; every other end is an exit after a successful native compile, or the ccache guard's -1 |
| Properties.NativeFailureOrSkipReturns | wllvm/compilers.py:51-63 | a failed native compile, or a successful one that needs no bitcode, returns the native status and starts nothing else |
| Properties.NativeCommandShape | wllvm/compilers.py:332-334 | the native command is the compiler plus the caller's arguments, minus one occurrence of each forbidden one, in order; it is missing exactly when a forbidden argument is absent |
| Properties.LinkOnlyWhenNotCompileOnly | wllvm/compilers.py:425-427 | the linker runs exactly when the command is not compile-only and no earlier step exited, and then it runs last; a compile-only command never rebuilds an object |
| Properties.BitcodeInputNotRecompiled | wllvm/compilers.py:416-418 | a `.bc` input is attached directly, with no bitcode compile |
| Properties.RustSourceEndsLoop | wllvm/compilers.py:403-410 | a `.rs` input hands over to the archive patcher, and the inputs after it are never looked at |
| Properties.HealthyLoopCollectsObjects | wllvm/compilers.py:400-422 | when every step succeeds and no source is Rust, the loop collects one rebuilt object per source, in order |
| Properties.HealthyBuildLinksEveryObject | wllvm/compilers.py:375-429 | such a linking build links exactly those objects and exits with 0 |
| Properties.CompileOnlyAttachesToOutput | wllvm/compilers.py:390-396 | with an explicit `-o`, the bitcode goes to the filter's bitcode name and is attached to that output |
| Properties.ExtractedSpec | wllvm/compilers.py:356-370 | the kept members are those whose extraction returned 0, in order, each kept as often as it is listed |
| Properties.ExtractedCounts | wllvm/compilers.py:356-370 | a member is kept once per listing when its extraction returns 0, and never otherwise |
| Properties.ArchiveScanResult | wllvm/compilers.py:340-372 | a listing failure gives `[]`; otherwise the result is, in listing order, the listed members whose name contains the crate name and whose extraction returned 0, each as often as `ar t` lists it |
| Properties.AttachMembersCollects | wllvm/compilers.py:404-409 | the Rust branch collects every member it attached to, in order, exactly when no attachment exited |

## Left out

- Child processes and the file system are not executed. Each
  one becomes an oracle of `World`, or an `Action` in the trace:
  - `Popen` and `subprocess.run`;
  - the scratch file, `fsync` and `os.remove`;
  - `copyfile`, `abspath` and `getsize`;
  - the `ps` parent check, which is a boolean.

  The oracles are deterministic in the argv, so a command that is run twice gets the same status.
- `Popen` raising `OSError` when a program is missing is not modelled. If it
  did, attachment would exit with 0, and any other step would be swallowed
  by `wcompile`'s handler.
- A failing `copyfile` into `WLLVM_BC_STORE` is not modelled.
- `cratename` being `None` is not modelled. In the source, the substring test
  would then raise.
- The argument-list classifier is not part of this model. This covers
  `ArgumentListFilter` and the `-o` callback of
  `ClangBitcodeArgumentListFilter`. The classifier is a function from the
  command line to the filter record, and only the fields the core reads are
  kept.
- `FileType.getFileType` is not part of this model; it is an oracle.
- SHA-256 is an opaque function of the path.
- Text.Split: whitespace is the ASCII set Python's `str.isspace` accepts.
  Unicode whitespace such as U+00A0 is not treated as a separator.
- Logging is left out, and so is the unused `objCompiler` of
  `ArObjectandAttachBitcode`. `getCompiler` cannot raise there, because
  phase one already called it successfully.
- The fixed paths are model parameters of `World`: the `dragonegg_as`
  directory and the scratch file's name. The model reuses that one scratch
  name for every attachment, while `attachBitcodePathToObject` creates a
  fresh `NamedTemporaryFile` on each call.
- `wllvm/wllvm.py` and `wllvm/wrust.py` are not part of this model.
  `wllvm.py` is the entry point that calls `wcompile`; `wrust.py` walks
  `target/debug` and patches a static library's members with
  `attachBitcodePathToObject`, running `llvm-ar` itself.
