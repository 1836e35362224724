/** The state file (src/persist.rs): written beside itself and renamed into place, read back with every failure
    but one taken for an empty state. */
module Persist {
  import opened Protocol

  const PRIVATE: nat := 384   // mode 0600

  /** What is found under a path. */
  datatype Stored = Missing | Garbage | Holds(state: DurableState)

  datatype Loaded = Parsed(state: DurableState) | Unreadable

  /** `load`: no file and a file that does not parse both count as an empty state; only another read error is an
      error. */
  function Load(file: Stored, readable: bool): Loaded {
    match file
    case Missing => Parsed(DurableState(map[], map[]))
    case Garbage => if readable then Parsed(DurableState(map[], map[])) else Unreadable
    case Holds(state) => if readable then Parsed(state) else Unreadable
  }

  /** What the daemon starts from: an unreadable journal is logged and taken for an empty one. */
  function Rehydrated(file: Stored, readable: bool): DurableState {
    match Load(file, readable)
    case Parsed(state) => state
    case Unreadable => DurableState(map[], map[])
  }

  /** Which step of a save fails, if any. */
  datatype Fault = NoFault | NoDirectory | NoWrite | NoChmod | NoRename

  datatype Draft = Draft(content: Stored, mode: nat)

  /** What a reader would find at one moment: content and mode under the path. */
  type View = (Stored, nat)

  /** Up to some moment everything is as before, from then on as saved: nobody ever sees half a file or an open one. */
  ghost predicate Atomic(views: seq<View>, before: View, after: View) {
    && (forall k :: 0 <= k < |views| ==> views[k] == before || views[k] == after)
    && (forall i, j :: 0 <= i < j < |views| && views[i] == after ==> views[j] == after)
  }

  class StateFile {
    var file: Stored
    var mode: nat
    var temp: Option<Draft>
    var views: seq<View>      // history: what was to be found after each step

    constructor (file: Stored, mode: nat, temp: Option<Draft>)
      ensures this.file == file && this.mode == mode && this.temp == temp && views == []
    {
      this.file, this.mode, this.temp, views := file, mode, temp, [];
    }

    /** Write the temporary file, make it private, rename it into place; any step may fail, and a failed write may leave
        half a temporary file behind, as may an earlier save. `umask` is the mode a new file gets. */
    method Save(state: DurableState, fault: Fault, umask: nat) returns (ok: bool)
      modifies this
      ensures ok <==> fault.NoFault?
      ensures (file, mode) == if ok then (Holds(state), PRIVATE) else old((file, mode))
      ensures ok ==> temp.None?
      ensures |old(views)| <= |views| && views[..|old(views)|] == old(views)
      ensures Atomic(views[|old(views)|..], old((file, mode)), (Holds(state), PRIVATE))
    {
      ghost var was, before := views, (file, mode);
      if fault.NoDirectory? {
        assert views[|was|..] == [];
        return false;
      }
      var kept := if temp.Some? then temp.value.mode else umask;
      temp := Some(Draft(if fault.NoWrite? then Garbage else Holds(state), kept));
      views := views + [(file, mode)];
      assert views[|was|..] == [before];
      if fault.NoWrite? {
        return false;
      }
      if fault.NoChmod? {
        return false;
      }
      temp := Some(temp.value.(mode := PRIVATE));
      views := views + [(file, mode)];
      assert views[|was|..] == [before, before];
      if fault.NoRename? {
        return false;
      }
      file, mode, temp := temp.value.content, temp.value.mode, None;
      views := views + [(file, mode)];
      assert views[|was|..] == [before, before, (file, mode)];
      ok := true;
    }
  }

  /** A daemon killed at any moment of a save starts from the state before it or from the state saved. */
  lemma {:induction false} InterruptedSaveIsWhole(views: seq<View>, before: View, after: DurableState, k: nat)
    requires Atomic(views, before, (Holds(after), PRIVATE)) && k < |views|
    ensures Rehydrated(views[k].0, true) == after || Rehydrated(views[k].0, true) == Rehydrated(before.0, true)
    ensures views[k].1 == before.1 || views[k].1 == PRIVATE
  {
  }

  /** What a save that succeeded put there is what a readable load gives back. */
  lemma {:induction false} LoadInvertsSave(state: DurableState, file: Stored)
    ensures Load(Holds(state), true) == Parsed(state)
    ensures Load(file, true) == Parsed(state) <==>
        file == Holds(state) || (state == DurableState(map[], map[]) && !file.Holds?)
  {
  }
}
