/** The compiler backends: which one the environment selects, how each
    resolves the names of its programs, and the builder object that owns the
    caller's command line and the memoised argument filter. */
module Builders {
  import opened Common
  import opened Config
  import opened Host
  import opened Text

  datatype Kind = Clang | Dragonegg | Rustc

  /** The exceptions raised while choosing and configuring a backend. */
  datatype ConfigError =
    | NoCompiler                         // neither LLVM_COMPILER nor a mixed compiler is set
    | InvalidCompiler(name: Option<string>)
    | MissingPrefix(path: string)        // the prefix directory does not exist
    | UnknownMode(mode: string)          // the backend has no program for this mode

  /** `os.path.sep` on the platforms the wrapper supports. */
  const Sep: char := '/'

  /** Clang builds the variant of the classifier that keeps the `-o` name. */
  function FlavorOf(kind: Kind): (f: Flavor)
    ensures f == ClangBitcodeFilter <==> kind == Clang
  {
    if kind == Clang then ClangBitcodeFilter else PlainFilter
  }

  // ---------------------------------------------------------------------
  // Prefix normalisation (BuilderBase.__init__)

  /** Appends the separator to a non-empty path exactly when it is missing. */
  function WithTrailingSep(p: string): (r: string)
    requires p != []
    ensures |r| == |p| + (if p[|p| - 1] == Sep then 0 else 1)
    ensures r[..|p|] == p
    ensures r[|r| - 1] == Sep
  {
    if p[|p| - 1] != Sep then p + [Sep] else p
  }

  /** Normalising twice changes nothing after the first time. */
  lemma {:induction false} WithTrailingSepIdempotent(p: string)
    requires p != []
    ensures WithTrailingSep(WithTrailingSep(p)) == WithTrailingSep(p)
  {
  }

  /** The prefix a builder prepends to its programs: empty when none is
      configured, otherwise the configured path ending in one separator,
      which must exist on disk. */
  function NormalizePrefix(prefix: Option<string>, onDisk: set<string>): (r: Result<string, ConfigError>)
    ensures !Truthy(prefix) ==> r == Ok("")
    ensures Truthy(prefix) ==> (r.Ok? <==> WithTrailingSep(prefix.value) in onDisk)
    ensures Truthy(prefix) && r.Ok? ==> r.value == WithTrailingSep(prefix.value)
    ensures r.Err? ==> r.error == MissingPrefix(WithTrailingSep(prefix.value))
    ensures r.Ok? ==> r.value == "" || (r.value in onDisk && r.value[|r.value| - 1] == Sep)
  {
    if Truthy(prefix) then
      var p := WithTrailingSep(prefix.value);
      if p in onDisk then Ok(p) else Err(MissingPrefix(p))
    else Ok("")
  }

  // ---------------------------------------------------------------------
  // Program names (getCompiler, getBitcodeCompiler, getLLVM_ar)

  /** The modes a backend knows a compiler for. */
  predicate ModeSupported(kind: Kind, mode: string) {
    if kind == Rustc then mode == "wllvmrs"
    else mode == "wllvm++" || mode == "wllvm" || mode == "wfortran"
  }

  /** `getCompiler`: a one-element command naming the compiler under the prefix. */
  function CompilerFor(kind: Kind, mode: string, prefix: string, env: Env): (r: Result<seq<string>, ConfigError>)
    ensures r.Ok? <==> ModeSupported(kind, mode)
    ensures r.Err? ==> r.error == UnknownMode(mode)
    ensures r.Ok? ==> |r.value| == 1 && prefix <= r.value[0]
  {
    match kind
    case Clang =>
      if mode == "wllvm++" then Ok([prefix + OrDefault(env.cxxName, "clang++")])
      else if mode == "wllvm" then Ok([prefix + OrDefault(env.ccName, "clang")])
      else if mode == "wfortran" then Ok([prefix + OrDefault(env.f77Name, "flang")])
      else Err(UnknownMode(mode))
    case Dragonegg =>
      var pfx := if env.gccPrefix.Some? then env.gccPrefix.value else "";
      if mode == "wllvm++" then Ok([prefix + pfx + "g++"])
      else if mode == "wllvm" then Ok([prefix + pfx + "gcc"])
      else if mode == "wfortran" then Ok([prefix + pfx + "gfortran"])
      else Err(UnknownMode(mode))
    case Rustc =>
      if mode == "wllvmrs" then Ok([prefix + OrDefault(env.rustcName, "rustc")])
      else Err(UnknownMode(mode))
  }

  /** The default program of each backend and mode, which only that mode's
      own override can change; Dragonegg ignores the name overrides and uses
      LLVM_GCC_PREFIX instead. */
  lemma {:induction false} DefaultProgramNames(prefix: string, env: Env)
    ensures !Truthy(env.ccName) ==> CompilerFor(Clang, "wllvm", prefix, env) == Ok([prefix + "clang"])
    ensures !Truthy(env.cxxName) ==> CompilerFor(Clang, "wllvm++", prefix, env) == Ok([prefix + "clang++"])
    ensures !Truthy(env.f77Name) ==> CompilerFor(Clang, "wfortran", prefix, env) == Ok([prefix + "flang"])
    ensures env.gccPrefix.None? ==> CompilerFor(Dragonegg, "wllvm", prefix, env) == Ok([prefix + "gcc"])
    ensures env.gccPrefix.None? ==> CompilerFor(Dragonegg, "wllvm++", prefix, env) == Ok([prefix + "g++"])
    ensures env.gccPrefix.None? ==> CompilerFor(Dragonegg, "wfortran", prefix, env) == Ok([prefix + "gfortran"])
    ensures !Truthy(env.rustcName) ==> CompilerFor(Rustc, "wllvmrs", prefix, env) == Ok([prefix + "rustc"])
  {
    assert prefix + "" + "gcc" == prefix + "gcc";
    assert prefix + "" + "g++" == prefix + "g++";
    assert prefix + "" + "gfortran" == prefix + "gfortran";
  }

  /** A set name override replaces the default program name in full, for
      every mode of Clang and Rust, whatever the other overrides say. */
  lemma {:induction false} OverrideReplacesDefault(prefix: string, env: Env)
    ensures Truthy(env.ccName) ==> CompilerFor(Clang, "wllvm", prefix, env) == Ok([prefix + env.ccName.value])
    ensures Truthy(env.cxxName) ==> CompilerFor(Clang, "wllvm++", prefix, env) == Ok([prefix + env.cxxName.value])
    ensures Truthy(env.f77Name) ==> CompilerFor(Clang, "wfortran", prefix, env) == Ok([prefix + env.f77Name.value])
    ensures Truthy(env.rustcName) ==> CompilerFor(Rustc, "wllvmrs", prefix, env) == Ok([prefix + env.rustcName.value])
  {
  }

  /** Dragonegg puts LLVM_GCC_PREFIX, when it is set (even to the empty
      string), between the prefix and the gcc program name, and ignores the
      name overrides. */
  lemma {:induction false} GccPrefixPrepended(prefix: string, env: Env, g: string)
    requires env.gccPrefix == Some(g)
    ensures CompilerFor(Dragonegg, "wllvm", prefix, env) == Ok([prefix + g + "gcc"])
    ensures CompilerFor(Dragonegg, "wllvm++", prefix, env) == Ok([prefix + g + "g++"])
    ensures CompilerFor(Dragonegg, "wfortran", prefix, env) == Ok([prefix + g + "gfortran"])
    ensures g == "" ==> CompilerFor(Dragonegg, "wllvm", prefix, env) == Ok([prefix + "gcc"])
  {
    assert prefix + "" + "gcc" == prefix + "gcc";
  }

  /** The extra flags of LLVM_BITCODE_GENERATION_FLAGS, split on whitespace. */
  function BitcodeFlags(env: Env): (r: seq<string>)
    ensures r == Split(OrDefault(env.bitcodeFlags, ""))
    ensures !Truthy(env.bitcodeFlags) ==> r == []
  {
    if Truthy(env.bitcodeFlags) then Split(env.bitcodeFlags.value) else []
  }

  /** The flag that makes the compiler emit bitcode instead of an object. */
  function EmitFlag(kind: Kind): string {
    if kind == Rustc then "--emit=llvm-bc" else "-emit-llvm"
  }

  const DragoneggEmitIr := "-fplugin-arg-dragonegg-emit-ir"

  /** `getBitcodeCompiler`: the native compiler command followed by the
      bitcode-emission flags. */
  function BitcodeCompilerFor(kind: Kind, mode: string, prefix: string, env: Env, asDir: string)
    : (r: Result<seq<string>, ConfigError>)
    ensures r.Ok? <==> CompilerFor(kind, mode, prefix, env).Ok?
    ensures r.Err? ==> r.error == UnknownMode(mode)
    ensures r.Ok? ==> CompilerFor(kind, mode, prefix, env).value <= r.value
    ensures r.Ok? && kind != Dragonegg ==> |r.value| == 2 + |BitcodeFlags(env)|
    ensures r.Ok? && kind != Dragonegg ==>
              r.value[1] == EmitFlag(kind) && r.value[2..] == BitcodeFlags(env)
    ensures r.Ok? && kind == Dragonegg ==>
              r.value[1..] == ["-B", asDir, "-fplugin=" + PyStr(env.dragoneggPlugin), DragoneggEmitIr]
  {
    match CompilerFor(kind, mode, prefix, env)
    case Err(e) => Err(e)
    case Ok(cc) =>
      if kind == Dragonegg then
        Ok(cc + ["-B", asDir, "-fplugin=" + PyStr(env.dragoneggPlugin), DragoneggEmitIr])
      else
        Ok(cc + [EmitFlag(kind)] + BitcodeFlags(env))
  }

  /** Without extra flags the bitcode command adds exactly the emit flag. */
  lemma {:induction false} NoExtraFlagsNoSuffix(kind: Kind, mode: string, prefix: string, env: Env, asDir: string)
    requires kind != Dragonegg && !Truthy(env.bitcodeFlags)
    requires ModeSupported(kind, mode)
    ensures BitcodeCompilerFor(kind, mode, prefix, env, asDir)
         == Ok(CompilerFor(kind, mode, prefix, env).value + [EmitFlag(kind)])
  {
    var cc := CompilerFor(kind, mode, prefix, env).value;
    assert cc + [EmitFlag(kind)] + [] == cc + [EmitFlag(kind)];
  }

  /** Extra flags written as space-separated tokens reach the bitcode command verbatim. */
  lemma {:induction false} ExtraFlagsVerbatim(kind: Kind, mode: string, prefix: string, env: Env, asDir: string, flags: seq<string>)
    requires kind != Dragonegg && ModeSupported(kind, mode)
    requires forall k | 0 <= k < |flags| :: IsToken(flags[k])
    requires env.bitcodeFlags == Some(JoinSpaced(flags))
    ensures BitcodeCompilerFor(kind, mode, prefix, env, asDir)
         == Ok(CompilerFor(kind, mode, prefix, env).value + [EmitFlag(kind)] + flags)
  {
    SplitJoinRoundTrip(flags);
  }

  /** `getLLVM_ar`: the archiver under the same prefix. */
  function LlvmArFor(prefix: string, env: Env): (r: seq<string>)
    ensures |r| == 1 && prefix <= r[0]
    ensures !Truthy(env.arName) ==> r == [prefix + "llvm-ar"]
    ensures Truthy(env.arName) ==> r == [prefix + env.arName.value]
  {
    [prefix + OrDefault(env.arName, "llvm-ar")]
  }

  // ---------------------------------------------------------------------
  // Backend selection (getBuilder)

  /** The chosen backend and the raw prefix variable it will normalise. */
  datatype Backend = Backend(kind: Kind, prefix: Option<string>)

  /** Rust is chosen for `wllvmrs` when LLVM_MIXED_COMPILER is rustc, before
      LLVM_COMPILER is looked at; otherwise clang, then dragonegg. */
  predicate WantsRust(mode: string, env: Env) {
    mode == "wllvmrs" && env.mixedCompiler == Some("rustc")
  }

  function Select(mode: string, env: Env): (r: Result<Backend, ConfigError>)
    ensures r.Ok? && r.value.kind == Rustc <==> WantsRust(mode, env)
    ensures r.Ok? && r.value.kind == Clang <==> !WantsRust(mode, env) && env.compiler == Some("clang")
    ensures r.Ok? && r.value.kind == Dragonegg <==> !WantsRust(mode, env) && env.compiler == Some("dragonegg")
    ensures r.Ok? ==> r.value.prefix == (if r.value.kind == Rustc then env.rustcPath else env.compilerPath)
    ensures r.Err? ==> r.error.NoCompiler? || r.error == InvalidCompiler(env.compiler)
  {
    if WantsRust(mode, env) then Ok(Backend(Rustc, env.rustcPath))
    else if env.compiler == Some("clang") then Ok(Backend(Clang, env.compilerPath))
    else if env.compiler == Some("dragonegg") then Ok(Backend(Dragonegg, env.compilerPath))
    else
      // `(compiler and othercompiler) is None` only picks the message
      var conj := if !Truthy(env.compiler) then env.compiler else env.mixedCompiler;
      if conj.None? then Err(NoCompiler) else Err(InvalidCompiler(env.compiler))
  }

  /** Selection fails exactly when neither a Rust build nor a known
      LLVM_COMPILER value applies. */
  lemma {:induction false} SelectFailsIff(mode: string, env: Env)
    ensures Select(mode, env).Err? <==>
              !WantsRust(mode, env) && env.compiler != Some("clang") && env.compiler != Some("dragonegg")
  {
  }

  /** The backend and its normalised prefix: getBuilder followed by the
      constructor's prefix check. */
  datatype Resolved = Resolved(kind: Kind, prefixPath: string)

  function Resolve(mode: string, env: Env, onDisk: set<string>): (r: Result<Resolved, ConfigError>)
    ensures r.Ok? <==> Select(mode, env).Ok? && NormalizePrefix(Select(mode, env).value.prefix, onDisk).Ok?
    ensures r.Ok? ==> r.value.kind == Select(mode, env).value.kind
    ensures r.Ok? ==> r.value.prefixPath == NormalizePrefix(Select(mode, env).value.prefix, onDisk).value
  {
    match Select(mode, env)
    case Err(e) => Err(e)
    case Ok(b) =>
      match NormalizePrefix(b.prefix, onDisk)
      case Err(e) => Err(e)
      case Ok(p) => Ok(Resolved(b.kind, p))
  }

  // ---------------------------------------------------------------------
  // Stripping forbidden arguments (getCommand)

  /** `b` keeps the elements of `a` in their relative order. */
  predicate IsSubseq<T(==)>(a: seq<T>, b: seq<T>)
    decreases |b|
  {
    if a == [] then true
    else if b == [] then false
    else (a[0] == b[0] && IsSubseq(a[1..], b[1..])) || IsSubseq(a, b[1..])
  }

  lemma {:induction false} SubseqRefl<T>(a: seq<T>)
    ensures IsSubseq(a, a)
    decreases |a|
  {
    if a != [] { SubseqRefl(a[1..]); }
  }

  lemma {:induction false} SubseqTrans<T>(a: seq<T>, b: seq<T>, c: seq<T>)
    requires IsSubseq(a, b) && IsSubseq(b, c)
    ensures IsSubseq(a, c)
    decreases |a| + |b| + |c|
  {
    if a == [] || b == [] || c == [] {
    } else if IsSubseq(b, c[1..]) {
      SubseqTrans(a, b, c[1..]);
    } else {
      assert b[0] == c[0] && IsSubseq(b[1..], c[1..]);
      if a[0] == b[0] && IsSubseq(a[1..], b[1..]) {
        SubseqTrans(a[1..], b[1..], c[1..]);
      } else {
        SubseqTrans(a, b[1..], c[1..]);
      }
    }
  }

  /** Deleting one position leaves a subsequence. */
  lemma {:induction false} DropOneIsSubseq<T>(s: seq<T>, i: nat)
    requires i < |s|
    ensures IsSubseq(s[..i] + s[i + 1..], s)
    decreases i
  {
    if i == 0 {
      assert s[..0] + s[1..] == s[1..];
      SubseqRefl(s[1..]);
    } else {
      var d := s[..i] + s[i + 1..];
      assert d[0] == s[0];
      assert d[1..] == s[1..][..i - 1] + s[1..][i..];
      DropOneIsSubseq(s[1..], i - 1);
    }
  }

  /** The index `list.index(x)` would return. */
  function FirstIndex(s: seq<string>, x: string): (i: nat)
    requires x in s
    ensures i < |s| && s[i] == x && x !in s[..i]
  {
    if s[0] == x then 0
    else
      var j := FirstIndex(s[1..], x);
      assert s[..j + 1] == [s[0]] + s[1..][..j];
      j + 1
  }

  /** `list.remove(x)`: deletes the first occurrence of `x`. */
  function RemoveFirst(s: seq<string>, x: string): seq<string>
    requires x in s
  {
    var i := FirstIndex(s, x);
    s[..i] + s[i + 1..]
  }

  /** One removal shortens the list by one occurrence of `x` and keeps the
      order of the rest. */
  lemma {:induction false} RemoveFirstSpec(s: seq<string>, x: string)
    requires x in s
    ensures var r := RemoveFirst(s, x);
            && |r| == |s| - 1
            && multiset(r) == multiset(s) - multiset{x}
            && IsSubseq(r, s)
  {
    var i := FirstIndex(s, x);
    assert s == s[..i] + [x] + s[i + 1..];
    DropOneIsSubseq(s, i);
  }

  /** What is left after removing each forbidden argument in turn, and
      whether every removal found its argument; on a failed removal the
      list is left as the earlier removals made it. */
  datatype Removal = Removal(rest: seq<string>, ok: bool)

  function RemoveEach(cmd: seq<string>, forbidden: seq<string>): Removal
    decreases |forbidden|
  {
    if forbidden == [] then Removal(cmd, true)
    else if forbidden[0] !in cmd then Removal(cmd, false)
    else RemoveEach(RemoveFirst(cmd, forbidden[0]), forbidden[1..])
  }

  /** Stripping succeeds exactly when every forbidden argument is present,
      counted with multiplicity. */
  lemma {:induction false} RemoveEachSucceeds(cmd: seq<string>, forbidden: seq<string>)
    ensures forbidden == [] ==> RemoveEach(cmd, forbidden) == Removal(cmd, true)
    ensures RemoveEach(cmd, forbidden).ok <==> multiset(forbidden) <= multiset(cmd)
    decreases |forbidden|
  {
    if forbidden != [] {
      var x, more := forbidden[0], forbidden[1..];
      assert forbidden == [x] + more;
      assert multiset(forbidden) == multiset{x} + multiset(more);
      if x !in cmd {
        assert multiset(cmd)[x] == 0;
      } else {
        var shorter := RemoveFirst(cmd, x);
        RemoveFirstSpec(cmd, x);
        RemoveEachSucceeds(shorter, more);
        SubMultisetShift(x, multiset(more), multiset(cmd));
      }
    }
  }

  /** A successful stripping removes one occurrence of each forbidden
      argument and nothing else. */
  lemma {:induction false} RemoveEachCounts(cmd: seq<string>, forbidden: seq<string>)
    ensures RemoveEach(cmd, forbidden).ok ==>
              multiset(RemoveEach(cmd, forbidden).rest) == multiset(cmd) - multiset(forbidden)
    decreases |forbidden|
  {
    if forbidden != [] && forbidden[0] in cmd {
      var x, more := forbidden[0], forbidden[1..];
      assert forbidden == [x] + more;
      assert multiset(forbidden) == multiset{x} + multiset(more);
      var shorter := RemoveFirst(cmd, x);
      RemoveFirstSpec(cmd, x);
      RemoveEachCounts(shorter, more);
      DifferenceShift(x, multiset(more), multiset(cmd));
    }
  }

  lemma SubMultisetShift<T>(x: T, a: multiset<T>, m: multiset<T>)
    requires x in m
    ensures multiset{x} + a <= m <==> a <= m - multiset{x}
  {
  }

  lemma DifferenceShift<T>(x: T, a: multiset<T>, m: multiset<T>)
    ensures m - multiset{x} - a == m - (multiset{x} + a)
  {
  }

  /** A successful stripping shortens the list by the number of forbidden
      arguments. */
  lemma {:induction false} RemoveEachLength(cmd: seq<string>, forbidden: seq<string>)
    ensures RemoveEach(cmd, forbidden).ok ==>
              |RemoveEach(cmd, forbidden).rest| == |cmd| - |forbidden|
    decreases |forbidden|
  {
    if forbidden != [] && forbidden[0] in cmd {
      RemoveFirstSpec(cmd, forbidden[0]);
      RemoveEachLength(RemoveFirst(cmd, forbidden[0]), forbidden[1..]);
    }
  }

  /** Whatever the outcome, the surviving arguments keep their relative
      order. */
  lemma {:induction false} RemoveEachOrder(cmd: seq<string>, forbidden: seq<string>)
    ensures IsSubseq(RemoveEach(cmd, forbidden).rest, cmd)
    decreases |forbidden|
  {
    if forbidden == [] || forbidden[0] !in cmd {
      SubseqRefl(cmd);
    } else {
      var shorter := RemoveFirst(cmd, forbidden[0]);
      RemoveFirstSpec(cmd, forbidden[0]);
      RemoveEachOrder(shorter, forbidden[1..]);
      SubseqTrans(RemoveEach(shorter, forbidden[1..]).rest, shorter, cmd);
    }
  }

  // ---------------------------------------------------------------------
  // The builder object

  class Builder {
    const kind: Kind
    const mode: string
    const prefixPath: string
    const classify: (Flavor, seq<string>) -> ArgFilter
    /** The caller's arguments; getCommand strips forbidden ones in place. */
    var cmd: seq<string>
    /** The memoised argument filter. */
    var af: Option<ArgFilter>

    constructor (kind: Kind, cmd: seq<string>, mode: string, prefixPath: string,
                 classify: (Flavor, seq<string>) -> ArgFilter)
      ensures this.kind == kind && this.mode == mode && this.prefixPath == prefixPath
      ensures this.classify == classify
      ensures this.cmd == cmd && this.af == None
    {
      this.kind := kind;
      this.mode := mode;
      this.prefixPath := prefixPath;
      this.classify := classify;
      this.cmd := cmd;
      this.af := None;
    }

    /** The filter `getBitcodeArglistFilter` hands out in the current state. */
    function Filter(): ArgFilter
      reads this
    {
      if af.Some? then af.value else classify(FlavorOf(kind), cmd)
    }

    /** What getCommand leaves of the command, and whether it raises. */
    function Stripped(): Removal
      reads this
    {
      if af.Some? then RemoveEach(cmd, af.value.forbiddenArgs) else Removal(cmd, true)
    }

    /** Classifies the command on the first call and returns the same filter
        ever after. */
    method GetBitcodeArglistFilter() returns (f: ArgFilter)
      modifies this`af
      ensures af == Some(f) && f == old(Filter())
      ensures old(af).Some? ==> f == old(af).value
      ensures old(af).None? ==> f == classify(FlavorOf(kind), cmd)
    {
      if af.None? {
        af := Some(classify(FlavorOf(kind), cmd));
      }
      f := af.value;
    }

    /** Returns the command, first removing each forbidden argument of the
        memoised filter in place; `None` is the ValueError `list.remove`
        raises for an argument that is not there. */
    method GetCommand() returns (r: Option<seq<string>>)
      modifies this`cmd
      ensures cmd == old(Stripped()).rest
      ensures r == if old(Stripped()).ok then Some(cmd) else None
    {
      if af.Some? {
        var forbidden := af.value.forbiddenArgs;
        if forbidden != [] {
          for k := 0 to |forbidden|
            invariant RemoveEach(old(cmd), forbidden) == RemoveEach(cmd, forbidden[k..])
          {
            var baddy := forbidden[k];
            if baddy !in cmd {
              return None;
            }
            assert forbidden[k..][1..] == forbidden[k + 1..];
            cmd := RemoveFirst(cmd, baddy);
          }
        }
      }
      r := Some(cmd);
    }
  }

  /** getBuilder together with the builder's constructor: fails with the
      configuration error, or yields a fresh builder for the resolved backend. */
  method GetBuilder(cmd: seq<string>, mode: string, w: World) returns (r: Result<Builder, ConfigError>)
    ensures r.Ok? <==> Resolve(mode, w.env, w.onDisk).Ok?
    ensures r.Err? ==> r.error == Resolve(mode, w.env, w.onDisk).error
    ensures r.Ok? ==>
              && fresh(r.value)
              && r.value.kind == Resolve(mode, w.env, w.onDisk).value.kind
              && r.value.prefixPath == Resolve(mode, w.env, w.onDisk).value.prefixPath
              && r.value.mode == mode && r.value.classify == w.classify
              && r.value.cmd == cmd && r.value.af == None
  {
    var sel := Select(mode, w.env);
    if sel.Err? {
      return Err(sel.error);
    }
    var prefix := NormalizePrefix(sel.value.prefix, w.onDisk);
    if prefix.Err? {
      return Err(prefix.error);
    }
    var b := new Builder(sel.value.kind, cmd, mode, prefix.value, w.classify);
    r := Ok(b);
  }
}
