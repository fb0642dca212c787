/** attachBitcodePathToObject: records the absolute path of a bitcode file
    in a dedicated section of a relocatable object. */
module Attach {
  import opened Common
  import opened Config
  import opened Host
  import opened Commands

  /** getHashedPathName: no name for a missing or empty path, otherwise the
      SHA-256 hex digest of the path. */
  function HashedPathName(path: Option<string>, sha256: string -> string): (r: Option<string>)
    ensures r.None? <==> !Truthy(path)
    ensures r.Some? ==> r.value == sha256(path.value)
  {
    if Truthy(path) then Some(sha256(path.value)) else None
  }

  /** `os.path.join(a, b)` for two components. */
  function PathJoin(a: string, b: string): (r: string)
    ensures b != [] && b[0] == '/' ==> r == b
  {
    if b != [] && b[0] == '/' then b
    else if a == [] || a[|a| - 1] == '/' then a + b
    else a + "/" + b
  }

  /** Only relocatable objects receive a bitcode path. */
  predicate Attachable(t: FileType) {
    t == MachObject || t == ElfObject
  }

  /** The text written into the section: the absolute bitcode path and a newline. */
  function Payload(w: World, bc: string): (r: string)
    ensures |r| == |w.absPath(bc)| + 1
    ensures r[..|r| - 1] == w.absPath(bc) && r[|r| - 1] == '\n'
  {
    w.absPath(bc) + "\n"
  }

  /** The slot in WLLVM_BC_STORE a bitcode file is copied to: named by the
      hash of its absolute path. */
  function StoreSlot(w: World, bc: string): (r: Option<string>)
    ensures r.Some? <==> Truthy(w.env.bcStore)
    ensures r.Some? ==> r == Some(PathJoin(w.env.bcStore.value, w.sha256(w.absPath(bc))))
  {
    if Truthy(w.env.bcStore) then
      Some(PathJoin(w.env.bcStore.value, HashedPathName(Some(w.absPath(bc)), w.sha256).value))
    else None
  }

  /** The section-editing command for `obj`. */
  function EditCommand(w: World, obj: string): seq<string> {
    AttachCommand(w.env.binutilsTargetPrefix, w.darwin, w.scratchName, obj)
  }

  /** One call of attachBitcodePathToObject(bc, obj): nothing for a file that
      is not a relocatable object; otherwise write the payload to the scratch
      file, copy the bitcode to the store if one is configured, run the
      section editor when the object is non-empty, and remove the scratch
      file. A vanished object terminates with 0, a failed edit with -1.
      What this promises is stated by `AttachContract`. */
  function AttachBitcodePathToObject(w: World, bc: string, obj: string): Step {
    if !Attachable(w.fileType(obj)) then Step(None, [])
    else
      var write := [WriteScratch(w.scratchName, Payload(w, bc))];
      var slot := StoreSlot(w, bc);
      var copy := if slot.Some? then [CopyToStore(w.absPath(bc), slot.value)] else [];
      var cleanup := [RemoveScratch(w.scratchName)];
      match w.size(obj)
      case None => Step(Some(0), write + copy + cleanup)  // getsize raised OSError: the object vanished
      case Some(n) =>
        if n > 0 then
          var cmd := EditCommand(w, obj);
          Step(if w.exitCode(cmd) != 0 then Some(-1) else None, write + copy + [Spawn(SectionEdit, cmd)] + cleanup)
        else Step(None, write + copy + cleanup)
  }

  lemma {:induction false} AttachContract(w: World, bc: string, obj: string)
    ensures var r := AttachBitcodePathToObject(w, bc, obj);
      && (!Attachable(w.fileType(obj)) ==> r == Step(None, []))
      && (Attachable(w.fileType(obj)) ==>
            && |r.trace| >= 2
            && r.trace[0] == WriteScratch(w.scratchName, Payload(w, bc))
            && r.trace[|r.trace| - 1] == RemoveScratch(w.scratchName))
      && (r.exit == Some(0) <==> Attachable(w.fileType(obj)) && w.size(obj).None?)
      && (r.exit == Some(-1) <==>
            && Attachable(w.fileType(obj)) && w.size(obj).Some? && w.size(obj).value > 0
            && w.exitCode(EditCommand(w, obj)) != 0)
      && (r.exit.None? || r.exit == Some(0) || r.exit == Some(-1))
      && (Uses(r.trace, SectionEdit) <==>
            Attachable(w.fileType(obj)) && w.size(obj).Some? && w.size(obj).value > 0)
      && (forall k | 0 <= k < |r.trace| && r.trace[k].Spawn? :: r.trace[k] == Spawn(SectionEdit, EditCommand(w, obj)))
      && (Truthy(w.env.bcStore) && Attachable(w.fileType(obj)) ==>
            r.trace[1] == CopyToStore(w.absPath(bc), PathJoin(w.env.bcStore.value, w.sha256(w.absPath(bc)))))
      && (!Truthy(w.env.bcStore) ==> forall k | 0 <= k < |r.trace| :: !r.trace[k].CopyToStore?)
  {
    if Attachable(w.fileType(obj)) {
      var write := [WriteScratch(w.scratchName, Payload(w, bc))];
      var cmd := EditCommand(w, obj);
      var slot := StoreSlot(w, bc);
      var copy := if slot.Some? then [CopyToStore(w.absPath(bc), slot.value)] else [];
      var cleanup := [RemoveScratch(w.scratchName)];
      if w.size(obj).Some? && w.size(obj).value > 0 {
        var edit := [Spawn(SectionEdit, cmd)];
        assert (write + copy + edit + cleanup)[|write + copy|] == edit[0];
        OnlySpawn(write + copy, edit, cleanup);
      } else {
        NoSpawn(write + copy + cleanup);
      }
    }
  }

  lemma NoSpawn(t: seq<Action>)
    requires forall k | 0 <= k < |t| :: !t[k].Spawn?
    ensures !Uses(t, SectionEdit)
  {
  }

  lemma OnlySpawn(a: seq<Action>, edit: seq<Action>, c: seq<Action>)
    requires forall k | 0 <= k < |a| :: !a[k].Spawn?
    requires forall k | 0 <= k < |c| :: !c[k].Spawn?
    requires |edit| == 1
    ensures forall k | 0 <= k < |a + edit + c| && (a + edit + c)[k].Spawn? :: (a + edit + c)[k] == edit[0]
  {
    var t := a + edit + c;
    assert forall k | 0 <= k < |a| :: t[k] == a[k];
    assert forall k | |a| < k < |t| :: t[k] == c[k - |a| - 1];
  }

  /** Every path through an attachment that writes the scratch file removes it again. */
  lemma {:induction false} ScratchAlwaysRemoved(w: World, bc: string, obj: string)
    ensures var r := AttachBitcodePathToObject(w, bc, obj);
            (exists k | 0 <= k < |r.trace| :: r.trace[k].WriteScratch?) ==>
              r.trace[|r.trace| - 1] == RemoveScratch(w.scratchName)
  {
    AttachContract(w, bc, obj);
  }

  /** Attaching the same bitcode path twice uses the same store slot. */
  lemma {:induction false} StoreSlotStable(w: World, bc1: string, bc2: string)
    requires w.absPath(bc1) == w.absPath(bc2)
    ensures StoreSlot(w, bc1) == StoreSlot(w, bc2)
  {
  }
}
