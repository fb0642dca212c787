/** Everything the core consults but does not compute: the argument
    classifier's result, the file-type detector, the file system and the
    child processes. Each is an oracle of the `World`; what the core does to
    the outside is recorded as a trace of `Action`s. */
module Host {
  import opened Common
  import opened Config

  /** The detector's verdict on a path; attachment accepts only the two
      relocatable-object kinds. */
  datatype FileType = ElfObject | MachObject | ElfShared | MachShared | OtherType

  /** Which classifier a backend builds: Clang's variant keeps the caller's
      `-o` name as `outputFilename` instead of renaming it. */
  datatype Flavor = ClangBitcodeFilter | PlainFilter

  /** The fields of the argument-list filter the core reads. */
  datatype ArgFilter = ArgFilter(
    inputFiles: seq<string>,
    isCompileOnly: bool,
    outputFilename: Option<string>,     // the explicit `-o` name, if any
    outputName: string,                 // getOutputFilename()
    bitcodeName: string,                // getBitcodeFileName()
    compileArgs: seq<string>,
    linkArgs: seq<string>,
    objectFiles: seq<string>,           // object files given on the command line
    forbiddenArgs: seq<string>,
    cratename: string,
    cratetype: Option<string>,
    outputBCname: string,
    artifactNames: (string, bool) -> (string, string),  // getArtifactNames(src, hidden) = (obj, bc)
    skip: bool                          // skipBitcodeGeneration()[0]
  )

  /** Tags naming the purpose of each child process in a trace. */
  datatype Tool = NativeCompile | ObjectCompile | BitcodeCompile | SectionEdit
                | ArchiveList | ArchiveExtract | Link

  datatype Action =
    | Spawn(tool: Tool, argv: seq<string>)      // a child process, waited for
    | WriteScratch(name: string, text: string)  // the temporary payload file
    | CopyToStore(src: string, dst: string)     // copyfile into WLLVM_BC_STORE
    | RemoveScratch(name: string)               // os.remove of the payload file

  /** An absolute path is never empty. */
  type AbsPath = s: string | s != [] witness "/"

  datatype World = World(
    env: Env,
    darwin: bool,                        // sys.platform.startswith('darwin')
    asDir: string,                       // the dragonegg_as directory beside the wrapper
    parentIsCcache: bool,                // `ps` names the parent process ccache
    onDisk: set<string>,                 // os.path.exists
    classify: (Flavor, seq<string>) -> ArgFilter,
    exitCode: seq<string> -> int,        // exit status of a child process
    stdoutLines: seq<string> -> seq<string>,  // its standard output, split into lines
    fileType: string -> FileType,
    size: string -> Option<nat>,         // os.path.getsize; None where it raises OSError
    absPath: string -> AbsPath,          // os.path.abspath
    scratchName: string,                 // the NamedTemporaryFile's name
    sha256: string -> string             // hexdigest of the UTF-8 encoding
  )

  /** The effect of one step: the exit code it terminated the process with,
      if any, and what it did before that. */
  datatype Step = Step(exit: Option<int>, trace: seq<Action>)

  /** The end of a whole invocation and everything it did on the way. */
  datatype Run = Run(outcome: Outcome, trace: seq<Action>)

  /** Runs `second` only when `first` did not terminate the process. */
  function Then(first: Step, second: Step): (r: Step)
    ensures first.exit.Some? ==> r == first
    ensures first.exit.None? ==> r == Step(second.exit, first.trace + second.trace)
  {
    if first.exit.Some? then first else Step(second.exit, first.trace + second.trace)
  }

  /** The trace starts a child process of the given kind. */
  predicate Uses(trace: seq<Action>, tool: Tool) {
    exists k | 0 <= k < |trace| :: trace[k].Spawn? && trace[k].tool == tool
  }
}
