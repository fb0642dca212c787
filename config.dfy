/** The process environment the wrapper consults through `os.getenv`, read
    once into an immutable record. `None` is an unset variable. */
module Config {
  import opened Common

  datatype Env = Env(
    compiler: Option<string>,            // LLVM_COMPILER: clang or dragonegg
    mixedCompiler: Option<string>,       // LLVM_MIXED_COMPILER: rustc for mixed builds
    compilerPath: Option<string>,        // LLVM_COMPILER_PATH: prefix of the native tools
    rustcPath: Option<string>,           // RUSTC_PATH: prefix of the Rust tools
    ccName: Option<string>,              // LLVM_CC_NAME
    cxxName: Option<string>,             // LLVM_CXX_NAME
    f77Name: Option<string>,             // LLVM_F77_NAME
    rustcName: Option<string>,           // LLVM_RUSTC_NAME
    arName: Option<string>,              // LLVM_AR_NAME
    gccPrefix: Option<string>,           // LLVM_GCC_PREFIX
    dragoneggPlugin: Option<string>,     // LLVM_DRAGONEGG_PLUGIN
    bitcodeFlags: Option<string>,        // LLVM_BITCODE_GENERATION_FLAGS
    binutilsTargetPrefix: Option<string>, // BINUTILS_TARGET_PREFIX
    bcStore: Option<string>              // WLLVM_BC_STORE
  )

  /** Python truthiness of `os.getenv(...)`: set and not empty. */
  predicate Truthy(v: Option<string>) {
    v.Some? && v.value != ""
  }

  /** `os.getenv(name) or default` */
  function OrDefault(v: Option<string>, default: string): (r: string)
    ensures Truthy(v) ==> r == v.value
    ensures !Truthy(v) ==> r == default
  {
    if Truthy(v) then v.value else default
  }

  /** `f'{v}'` for a value that may be `None`: Python spells it "None". */
  function PyStr(v: Option<string>): string {
    if v.Some? then v.value else "None"
  }
}
