/** The per-process file table as the syscalls see it through
    filetable_okfd, filetable_get / filetable_put, filetable_placeat and
    filetable_place: an array of slots, each empty (null) or holding a
    shared open-file record. */
module FileTables {
  import opened OpenFiles

  /** The lowest empty slot of `s`, or |s| when every slot is occupied. */
  function LowestFree(s: seq<OpenFile?>): (k: nat)
    ensures k <= |s|
    ensures k < |s| ==> s[k] == null
    ensures forall j :: 0 <= j < k ==> s[j] != null
  {
    if s == [] then 0
    else if s[0] == null then 0
    else 1 + LowestFree(s[1..])
  }

  /** The slots after filetable_place stores `file`: it goes into the lowest
      empty slot, and a full table is left as it was. */
  function PlaceSlots(s: seq<OpenFile?>, file: OpenFile): (t: seq<OpenFile?>)
    ensures |t| == |s|
    ensures LowestFree(s) < |s| ==> t[LowestFree(s)] == file
    ensures forall j :: 0 <= j < |s| && s[j] != null ==> t[j] == s[j]
    ensures forall j :: 0 <= j < |s| && j != LowestFree(s) ==> t[j] == s[j]
  {
    var k := LowestFree(s);
    if k < |s| then s[k := file] else s
  }

  /** The descriptor filetable_place writes back: the slot it used, or the
      caller's `fd0` untouched when the table is full. */
  function PlacedFd(s: seq<OpenFile?>, fd0: int): (fd: int)
    ensures LowestFree(s) < |s| ==> 0 <= fd < |s| && s[fd] == null
    ensures LowestFree(s) == |s| ==> fd == fd0
  {
    var k := LowestFree(s);
    if k < |s| then k else fd0
  }

  /** Placing into a non-empty table whose out-parameter starts at 0 always
      leaves that out-parameter naming an occupied slot: the new one, or
      slot 0 of a table that is full. */
  lemma PlacedFdOccupied(s: seq<OpenFile?>, file: OpenFile)
    requires |s| > 0
    ensures 0 <= PlacedFd(s, 0) < |s|
    ensures PlaceSlots(s, file)[PlacedFd(s, 0)] != null
  {
    if LowestFree(s) == |s| {
      assert s[0] != null;
    }
  }

  class FileTable {
    /** `ft_openfiles`: slot `fd` holds descriptor `fd`'s record, or null. */
    const slots: array<OpenFile?>

    /** filetable_okfd: `fd` is in range of the table. */
    predicate OkFd(fd: int): (ok: bool)
      ensures ok <==> 0 <= fd < slots.Length
    {
      0 <= fd < slots.Length
    }

    /** The records the table currently refers to. */
    ghost function Files(): set<OpenFile>
      reads slots
    {
      set f: OpenFile | f in slots[..]
    }

    /** The record in slot `fd`, as a set: empty for a bad or empty slot. */
    ghost function Occupant(fd: int): set<OpenFile>
      reads slots
    {
      if OkFd(fd) && slots[fd] != null then {slots[fd]} else {}
    }

    /** filetable_get: the record of an open descriptor. */
    method Get(fd: int) returns (file: OpenFile)
      requires OkFd(fd) && slots[fd] != null
      ensures file == slots[fd]
    {
      file := slots[fd];
    }

    /** filetable_put: hands back the record filetable_get gave out; the
        table does not change. */
    method Put(fd: int, file: OpenFile)
      requires OkFd(fd) && slots[fd] == file
      ensures slots[..] == old(slots[..])
    {
    }

    /** filetable_placeat: stores `file` (null empties the slot) in slot `fd`
        and returns what was there before. */
    method PlaceAt(file: OpenFile?, fd: int) returns (previous: OpenFile?)
      requires OkFd(fd)
      modifies slots
      ensures previous == old(slots[fd])
      ensures slots[..] == old(slots[..])[fd := file]
    {
      previous := slots[fd];
      slots[fd] := file;
    }

    /** The search filetable_place makes: the lowest empty slot, or
        slots.Length when there is none. */
    method FindFree() returns (fd: nat)
      ensures fd == LowestFree(slots[..])
    {
      fd := 0;
      while fd < slots.Length && slots[fd] != null
        invariant fd <= slots.Length
        invariant forall j :: 0 <= j < fd ==> slots[j] != null
      {
        fd := fd + 1;
      }
    }

    /** filetable_place(ft, file, &fd): stores `file` in the lowest empty slot
        and writes that slot back; when every slot is occupied it fails and
        leaves both the table and the caller's `fd0` as they were. */
    method Place(file: OpenFile, fd0: int) returns (placed: bool, fd: int)
      modifies slots
      ensures placed <==> exists j :: 0 <= j < slots.Length && old(slots[j]) == null
      ensures slots[..] == PlaceSlots(old(slots[..]), file)
      ensures fd == PlacedFd(old(slots[..]), fd0)
    {
      var k := FindFree();
      if k < slots.Length {
        slots[k] := file;
        placed, fd := true, k;
      } else {
        placed, fd := false, fd0;
      }
    }
  }
}
