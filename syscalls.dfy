/** The file-related system calls of kern/syscall/file_syscalls.c: open,
    read, write, close and meld. The calling process's file table is passed
    in explicitly; what the file system and the vnode layer answer is passed
    in as parameters. */
module FileSyscalls {
  import opened OpenFlags
  import opened OpenFiles
  import opened FileTables

  // ---------------------------------------------------------------------
  // open

  /** sys_open with the path already copied in. `outcome` is what
      openfile_open answers for this path; `retval0` is the caller's
      `*retval` before the call. Flags outside ALL_FLAGS are refused with -1
      before anything is opened; an open error is returned as it is; an
      opened file is placed in the table and 0 is returned, even when the
      table is full. `tried` says whether openfile_open was called and
      `created` is the record it returned. */
  method SysOpen(ft: FileTable, path: string, flags: bv32, mode: int, outcome: int, retval0: int)
    returns (result: int, retval: int, ghost tried: bool, ghost created: OpenFile?)
    modifies ft.slots
    ensures tried <==> ValidOpenFlags(flags)
    ensures !ValidOpenFlags(flags) ==> result == -1
    ensures ValidOpenFlags(flags) ==> result == outcome
    ensures result != 0 ==> created == null && retval == retval0 && unchanged(ft.slots)
    ensures result == 0 ==> created != null && fresh(created)
    ensures result == 0 ==> created.offset == 0 && created.refcount == 1
    ensures result == 0 ==> ft.slots[..] == PlaceSlots(old(ft.slots[..]), created)
    ensures result == 0 ==> retval == PlacedFd(old(ft.slots[..]), retval0)
  {
    tried, created := false, null;
    retval := retval0;
    if flags & ALL_FLAGS == flags {
      tried := true;
      var file;
      result, file := Open(path, flags, mode, outcome);
      if result != 0 {
        return;
      }
      created := file;
      var ok, fd := ft.Place(file, retval);  // filetable_place's result is ignored
      retval := fd;
      result := 0;
    } else {
      result := -1;
    }
  }

  // ---------------------------------------------------------------------
  // read and write

  /** sys_read on an open descriptor. `vopResult` is what VOP_READ answers.
      The record's offset moves forward by the requested `size` whatever
      VOP_READ answered, the record gains a reference, and VOP_READ's answer
      is returned as it is. */
  method SysRead(ft: FileTable, fd: int, size: nat, vopResult: int) returns (result: int)
    requires ft.OkFd(fd) && ft.slots[fd] != null
    modifies ft.slots[fd]
    ensures result == vopResult
    ensures ft.slots[fd].offset == old(ft.slots[fd].offset) + size
    ensures ft.slots[fd].refcount == old(ft.slots[fd].refcount) + 1
    ensures unchanged(ft.slots)
  {
    var file := ft.Get(fd);
    result := vopResult;
    file.offset := size + file.offset;
    file.Incref();
    ft.Put(fd, file);
  }

  /** sys_write on an open descriptor; `vopResult` is what VOP_WRITE
      answers. Same bookkeeping as SysRead. */
  method SysWrite(ft: FileTable, fd: int, size: nat, vopResult: int) returns (result: int)
    requires ft.OkFd(fd) && ft.slots[fd] != null
    modifies ft.slots[fd]
    ensures result == vopResult
    ensures ft.slots[fd].offset == old(ft.slots[fd].offset) + size
    ensures ft.slots[fd].refcount == old(ft.slots[fd].refcount) + 1
    ensures unchanged(ft.slots)
  {
    var file := ft.Get(fd);
    result := vopResult;
    file.offset := size + file.offset;
    file.Incref();
    ft.Put(fd, file);
  }

  // ---------------------------------------------------------------------
  // close

  /** What sys_close returns on the slots `s`: 0 exactly when `fd` is in
      range and its slot is occupied, -1 otherwise. */
  function CloseResult(s: seq<OpenFile?>, fd: int): (r: int)
    ensures r == 0 <==> 0 <= fd < |s| && s[fd] != null
    ensures r == 0 || r == -1
  {
    if !(0 <= fd < |s|) then -1
    else if s[fd] == null then -1
    else 0
  }

  /** The slots after sys_close: slot `fd` is empty, every other slot is as it
      was, and a bad `fd` changes nothing. */
  function AfterClose(s: seq<OpenFile?>, fd: int): (t: seq<OpenFile?>)
    ensures |t| == |s|
    ensures 0 <= fd < |s| ==> t[fd] == null
    ensures forall j :: 0 <= j < |s| && j != fd ==> t[j] == s[j]
  {
    if 0 <= fd < |s| then s[fd := null] else s
  }

  /** sys_close. A bad descriptor gives -1 and changes nothing; a good one
      always ends with its slot empty; if the slot held a record, that record
      loses exactly one reference and 0 is returned, otherwise -1. */
  method SysClose(ft: FileTable, fd: int) returns (result: int)
    modifies ft.slots, ft.Occupant(fd)`refcount
    ensures result == CloseResult(old(ft.slots[..]), fd)
    ensures ft.slots[..] == AfterClose(old(ft.slots[..]), fd)
    ensures ft.OkFd(fd) && old(ft.slots[fd]) != null ==>
              old(ft.slots[fd]).refcount == old(ft.slots[fd].refcount) - 1
  {
    if !ft.OkFd(fd) {
      return -1;
    }
    var oldfile := ft.PlaceAt(null, fd);
    if oldfile == null {
      return -1;
    }
    oldfile.Decref();
    return 0;
  }

  /** Closing the same descriptor a second time fails. */
  lemma CloseTwiceFails(s: seq<OpenFile?>, fd: int)
    ensures CloseResult(AfterClose(s, fd), fd) == -1
    ensures AfterClose(AfterClose(s, fd), fd) == AfterClose(s, fd)
  {
  }

  /** Opening into a table with an empty slot and then closing the
      descriptor sys_open wrote back restores the table. */
  lemma OpenThenCloseRestores(s: seq<OpenFile?>, file: OpenFile, retval0: int)
    requires exists j :: 0 <= j < |s| && s[j] == null
    ensures CloseResult(PlaceSlots(s, file), PlacedFd(s, retval0)) == 0
    ensures AfterClose(PlaceSlots(s, file), PlacedFd(s, retval0)) == s
  {
    var t := AfterClose(PlaceSlots(s, file), PlacedFd(s, retval0));
    assert forall j :: 0 <= j < |s| ==> t[j] == s[j];
  }

  // ---------------------------------------------------------------------
  // meld: the calls it makes, and their effect on the table and records

  /** The number of rounds sys_meld's loop runs, and the size of every read
      and write it makes. */
  const MELD_ROUNDS: nat := 4
  const MELD_CHUNK: nat := 4

  /** A system call made on a descriptor. */
  datatype Call = Read(fd: int, size: nat) | Write(fd: int, size: nat) | Close(fd: int)

  /** One round of sys_meld's loop. */
  function Round(fd1: int, fd2: int, fdout: int): seq<Call>
  {
    [Read(fd1, MELD_CHUNK), Read(fd2, MELD_CHUNK), Write(fdout, MELD_CHUNK), Write(fdout, MELD_CHUNK)]
  }

  /** The first `n` rounds of sys_meld's loop. */
  function Rounds(n: nat, fd1: int, fd2: int, fdout: int): (calls: seq<Call>)
    ensures |calls| == 4 * n
  {
    if n == 0 then [] else Rounds(n - 1, fd1, fd2, fdout) + Round(fd1, fd2, fdout)
  }

  /** Every call sys_meld makes once its three files are placed. */
  function MeldCalls(fd1: int, fd2: int, fdout: int): seq<Call>
  {
    Rounds(MELD_ROUNDS, fd1, fd2, fdout) + [Close(fd1), Close(fd2), Close(fdout)]
  }

  /** 1 when slot `fd` of `s` holds `f`, 0 otherwise. */
  function Hit(s: seq<OpenFile?>, fd: int, f: OpenFile): int
  {
    if 0 <= fd < |s| && s[fd] == f then 1 else 0
  }

  /** The slots after call `c`: only a close changes them. */
  function StepSlots(s: seq<OpenFile?>, c: Call): seq<OpenFile?>
  {
    if c.Close? then AfterClose(s, c.fd) else s
  }

  /** How far call `c`, made on the slots `s`, moves the offset of `f`. */
  function StepOffset(s: seq<OpenFile?>, c: Call, f: OpenFile): int
  {
    if c.Close? then 0 else c.size * Hit(s, c.fd, f)
  }

  /** How call `c`, made on the slots `s`, changes the reference count of `f`:
      a read or write adds one, a close of a slot holding `f` takes one. */
  function StepRefs(s: seq<OpenFile?>, c: Call, f: OpenFile): int
  {
    if c.Close? then -Hit(s, c.fd, f) else Hit(s, c.fd, f)
  }

  /** The slots after `calls` are made, in order, on the slots `s`. */
  function SlotsAfter(s: seq<OpenFile?>, calls: seq<Call>): (t: seq<OpenFile?>)
    ensures |t| == |s|
    decreases |calls|
  {
    if calls == [] then s
    else StepSlots(SlotsAfter(s, calls[..|calls| - 1]), calls[|calls| - 1])
  }

  /** How far `calls`, made in order on the slots `s`, move the offset of `f`. */
  function Transferred(s: seq<OpenFile?>, calls: seq<Call>, f: OpenFile): int
    decreases |calls|
  {
    if calls == [] then 0
    else
      var before := calls[..|calls| - 1];
      Transferred(s, before, f) + StepOffset(SlotsAfter(s, before), calls[|calls| - 1], f)
  }

  /** How `calls`, made in order on the slots `s`, change the reference count
      of `f`. */
  function RefChange(s: seq<OpenFile?>, calls: seq<Call>, f: OpenFile): int
    decreases |calls|
  {
    if calls == [] then 0
    else
      var before := calls[..|calls| - 1];
      RefChange(s, before, f) + StepRefs(SlotsAfter(s, before), calls[|calls| - 1], f)
  }

  /** Making one more call adds that call's step to each of the three
      effects. */
  lemma Snoc(s: seq<OpenFile?>, calls: seq<Call>, c: Call, f: OpenFile)
    ensures SlotsAfter(s, calls + [c]) == StepSlots(SlotsAfter(s, calls), c)
    ensures Transferred(s, calls + [c], f) == Transferred(s, calls, f) + StepOffset(SlotsAfter(s, calls), c, f)
    ensures RefChange(s, calls + [c], f) == RefChange(s, calls, f) + StepRefs(SlotsAfter(s, calls), c, f)
  {
    assert (calls + [c])[..|calls|] == calls;
  }

  /** How many of a round's four calls use a descriptor whose slot in `s`
      holds `f`. */
  function RoundHits(s: seq<OpenFile?>, fd1: int, fd2: int, fdout: int, f: OpenFile): int
  {
    Hit(s, fd1, f) + Hit(s, fd2, f) + 2 * Hit(s, fdout, f)
  }

  /** One more round of the loop leaves the slots alone and adds, for `f`,
      one chunk of offset and one reference per read or write whose
      descriptor holds it. */
  lemma RoundEffect(s: seq<OpenFile?>, calls: seq<Call>, fd1: int, fd2: int, fdout: int, f: OpenFile)
    requires SlotsAfter(s, calls) == s
    ensures SlotsAfter(s, calls + Round(fd1, fd2, fdout)) == s
    ensures Transferred(s, calls + Round(fd1, fd2, fdout), f) ==
            Transferred(s, calls, f) + MELD_CHUNK * RoundHits(s, fd1, fd2, fdout, f)
    ensures RefChange(s, calls + Round(fd1, fd2, fdout), f) ==
            RefChange(s, calls, f) + RoundHits(s, fd1, fd2, fdout, f)
  {
    var c := Round(fd1, fd2, fdout);
    Snoc(s, calls, c[0], f);
    Snoc(s, calls + [c[0]], c[1], f);
    Snoc(s, calls + [c[0]] + [c[1]], c[2], f);
    Snoc(s, calls + [c[0]] + [c[1]] + [c[2]], c[3], f);
    assert calls + [c[0]] + [c[1]] + [c[2]] + [c[3]] == calls + c;
  }

  /** `n` rounds of the loop leave the slots alone, move the offset of `f`
      by one chunk per read or write whose descriptor holds `f`, and give `f`
      one reference per such call. */
  lemma {:induction false} RoundsEffect(s: seq<OpenFile?>, n: nat, fd1: int, fd2: int, fdout: int, f: OpenFile)
    ensures SlotsAfter(s, Rounds(n, fd1, fd2, fdout)) == s
    ensures Transferred(s, Rounds(n, fd1, fd2, fdout), f) == n * (MELD_CHUNK * RoundHits(s, fd1, fd2, fdout, f))
    ensures RefChange(s, Rounds(n, fd1, fd2, fdout), f) == n * RoundHits(s, fd1, fd2, fdout, f)
  {
    if n > 0 {
      RoundsEffect(s, n - 1, fd1, fd2, fdout, f);
      RoundEffect(s, Rounds(n - 1, fd1, fd2, fdout), fd1, fd2, fdout, f);
      MulStep(n, MELD_CHUNK * RoundHits(s, fd1, fd2, fdout, f));
      MulStep(n, RoundHits(s, fd1, fd2, fdout, f));
    }
  }

  lemma MulStep(n: nat, k: int)
    requires n > 0
    ensures (n - 1) * k + k == n * k
  {
  }

  /** Closing three descriptors in a row empties their slots one after the
      other; each close that finds `f` in its slot takes one reference from
      it, and no close moves an offset. */
  lemma ClosesEffect(s: seq<OpenFile?>, calls: seq<Call>, fd1: int, fd2: int, fdout: int, f: OpenFile)
    ensures var t := SlotsAfter(s, calls);
            var closes := [Close(fd1), Close(fd2), Close(fdout)];
            && SlotsAfter(s, calls + closes) == AfterClose(AfterClose(AfterClose(t, fd1), fd2), fdout)
            && Transferred(s, calls + closes, f) == Transferred(s, calls, f)
            && RefChange(s, calls + closes, f) ==
               RefChange(s, calls, f) - Hit(t, fd1, f) - Hit(AfterClose(t, fd1), fd2, f)
               - Hit(AfterClose(AfterClose(t, fd1), fd2), fdout, f)
  {
    Snoc(s, calls, Close(fd1), f);
    Snoc(s, calls + [Close(fd1)], Close(fd2), f);
    Snoc(s, calls + [Close(fd1)] + [Close(fd2)], Close(fdout), f);
    assert calls + [Close(fd1)] + [Close(fd2)] + [Close(fdout)] == calls + [Close(fd1), Close(fd2), Close(fdout)];
  }

  /** The whole of sys_meld's calls on the placed slots `s`: the three slots
      end up empty, each source descriptor moves its record by 16 and the
      output descriptor by 32, with one reference per read or write and one
      fewer per close that finds the record in its slot. */
  lemma MeldCallsEffect(s: seq<OpenFile?>, fd1: int, fd2: int, fdout: int, f: OpenFile)
    ensures SlotsAfter(s, MeldCalls(fd1, fd2, fdout)) == AfterClose(AfterClose(AfterClose(s, fd1), fd2), fdout)
    ensures Transferred(s, MeldCalls(fd1, fd2, fdout), f) ==
            16 * Hit(s, fd1, f) + 16 * Hit(s, fd2, f) + 32 * Hit(s, fdout, f)
    ensures RefChange(s, MeldCalls(fd1, fd2, fdout), f) ==
            4 * Hit(s, fd1, f) + 4 * Hit(s, fd2, f) + 8 * Hit(s, fdout, f)
            - Hit(s, fd1, f) - Hit(AfterClose(s, fd1), fd2, f)
            - Hit(AfterClose(AfterClose(s, fd1), fd2), fdout, f)
  {
    RoundsEffect(s, MELD_ROUNDS, fd1, fd2, fdout, f);
    ClosesEffect(s, Rounds(MELD_ROUNDS, fd1, fd2, fdout), fd1, fd2, fdout, f);
  }

  /** sys_meld's calls neither move nor count a record that is in none of
      the slots. */
  lemma MeldSkips(s: seq<OpenFile?>, fd1: int, fd2: int, fdout: int, f: OpenFile)
    requires f !in s
    ensures SlotsAfter(s, MeldCalls(fd1, fd2, fdout)) == AfterClose(AfterClose(AfterClose(s, fd1), fd2), fdout)
    ensures Transferred(s, MeldCalls(fd1, fd2, fdout), f) == 0
    ensures RefChange(s, MeldCalls(fd1, fd2, fdout), f) == 0
  {
    MeldCallsEffect(s, fd1, fd2, fdout, f);
  }

  /** Where sys_meld's three records land, and the descriptors it then uses:
      each filetable_place writes back into a descriptor variable that starts
      at 0. */
  datatype Placement = Placement(slots: seq<OpenFile?>, fd1: int, fd2: int, fdout: int)

  function PlaceThree(s: seq<OpenFile?>, f1: OpenFile, f2: OpenFile, f3: OpenFile): Placement
  {
    var s1 := PlaceSlots(s, f1);
    var s2 := PlaceSlots(s1, f2);
    Placement(PlaceSlots(s2, f3), PlacedFd(s, 0), PlacedFd(s1, 0), PlacedFd(s2, 0))
  }

  /** The slots have at least three empty slots. */
  ghost predicate ThreeFree(s: seq<OpenFile?>)
  {
    exists a, b, c :: 0 <= a < b < c < |s| && s[a] == null && s[b] == null && s[c] == null
  }

  /** A placement into slots with an empty slot `b` uses an empty slot at
      or below `b`, writes that slot back and changes no other slot. */
  lemma PlaceBelow(s: seq<OpenFile?>, f: OpenFile, b: int)
    requires 0 <= b < |s| && s[b] == null
    ensures var k := PlacedFd(s, 0);
            var t := PlaceSlots(s, f);
            && 0 <= k <= b && s[k] == null && t[k] == f && |t| == |s|
            && forall j :: 0 <= j < |s| && j != k ==> t[j] == s[j]
  {
  }

  /** Whether sys_meld's three placements on `s` all land in distinct,
      previously empty slots, holding the three new records, with no other
      slot changed. */
  predicate PlacedApart(s: seq<OpenFile?>, p: Placement, f1: OpenFile, f2: OpenFile, f3: OpenFile)
  {
    && 0 <= p.fd1 < |s| && 0 <= p.fd2 < |s| && 0 <= p.fdout < |s|
    && p.fd1 != p.fd2 && p.fd1 != p.fdout && p.fd2 != p.fdout
    && s[p.fd1] == null && s[p.fd2] == null && s[p.fdout] == null
    && |p.slots| == |s|
    && p.slots[p.fd1] == f1 && p.slots[p.fd2] == f2 && p.slots[p.fdout] == f3
    && forall j :: 0 <= j < |s| && j != p.fd1 && j != p.fd2 && j != p.fdout ==> p.slots[j] == s[j]
  }

  /** With empty slots `a < b < c`, sys_meld's three placements land apart. */
  lemma PlaceThreeAt(s: seq<OpenFile?>, f1: OpenFile, f2: OpenFile, f3: OpenFile, a: int, b: int, c: int)
    requires 0 <= a < b < c < |s| && s[a] == null && s[b] == null && s[c] == null
    ensures PlacedApart(s, PlaceThree(s, f1, f2, f3), f1, f2, f3)
  {
    var s1, k1 := PlaceSlots(s, f1), PlacedFd(s, 0);
    PlaceBelow(s, f1, a);
    var s2, k2 := PlaceSlots(s1, f2), PlacedFd(s1, 0);
    PlaceBelow(s1, f2, b);
    var s3, k3 := PlaceSlots(s2, f3), PlacedFd(s2, 0);
    PlaceBelow(s2, f3, c);
    assert k2 != k1 by { assert s1[k1] == f1 && s1[k2] == null; }
    assert k3 != k1 && k3 != k2 by { assert s2[k1] == f1 && s2[k2] == f2 && s2[k3] == null; }
    assert PlaceThree(s, f1, f2, f3) == Placement(s3, k1, k2, k3);
  }

  /** With three empty slots, sys_meld's three placements all succeed: the
      new records land in three distinct, previously empty slots and nothing
      else changes. */
  lemma PlaceThreeOnFreeSlots(s: seq<OpenFile?>, f1: OpenFile, f2: OpenFile, f3: OpenFile)
    requires ThreeFree(s)
    ensures PlacedApart(s, PlaceThree(s, f1, f2, f3), f1, f2, f3)
  {
    var a, b, c :| 0 <= a < b < c < |s| && s[a] == null && s[b] == null && s[c] == null;
    PlaceThreeAt(s, f1, f2, f3, a, b, c);
  }

  /** Closing the three descriptors of a placement that landed apart gives
      back the slots from before the placements. */
  lemma ClosingApartRestores(s: seq<OpenFile?>, p: Placement, f1: OpenFile, f2: OpenFile, f3: OpenFile)
    requires PlacedApart(s, p, f1, f2, f3)
    ensures AfterClose(AfterClose(AfterClose(p.slots, p.fd1), p.fd2), p.fdout) == s
  {
    var closed := AfterClose(AfterClose(AfterClose(p.slots, p.fd1), p.fd2), p.fdout);
    assert forall j :: 0 <= j < |s| ==> closed[j] == s[j];
  }

  /** sys_meld's calls on a placement that landed apart: the table goes back
      to `s`, the new records move by 16, 16 and 32 and gain 3, 3 and 7
      references, and no record of `s` changes. */
  lemma MeldApart(s: seq<OpenFile?>, p: Placement, f1: OpenFile, f2: OpenFile, f3: OpenFile)
    requires PlacedApart(s, p, f1, f2, f3)
    requires f1 != f2 && f1 != f3 && f2 != f3
    requires f1 !in s && f2 !in s && f3 !in s
    ensures var calls := MeldCalls(p.fd1, p.fd2, p.fdout);
            && SlotsAfter(p.slots, calls) == s
            && Transferred(p.slots, calls, f1) == 16 && RefChange(p.slots, calls, f1) == 3
            && Transferred(p.slots, calls, f2) == 16 && RefChange(p.slots, calls, f2) == 3
            && Transferred(p.slots, calls, f3) == 32 && RefChange(p.slots, calls, f3) == 7
            && forall g :: g in s ==> Transferred(p.slots, calls, g) == 0 && RefChange(p.slots, calls, g) == 0
  {
    var t, k1, k2, k3 := p.slots, p.fd1, p.fd2, p.fdout;
    ClosingApartRestores(s, p, f1, f2, f3);
    MeldCallsEffect(t, k1, k2, k3, f1);
    MeldCallsEffect(t, k1, k2, k3, f2);
    MeldCallsEffect(t, k1, k2, k3, f3);
    forall g | g in s
      ensures Transferred(t, MeldCalls(k1, k2, k3), g) == 0 && RefChange(t, MeldCalls(k1, k2, k3), g) == 0
    {
      MeldCallsEffect(t, k1, k2, k3, g);
    }
  }

  /** With three empty slots, sys_meld's calls leave the table as it was
      before the placements, move the sources' offsets by 16 and the
      output's by 32, leave the new records 3, 3 and 7 references above
      where they started, and touch no record that was already in the
      table. */
  lemma MeldOnFreeSlots(s: seq<OpenFile?>, f1: OpenFile, f2: OpenFile, f3: OpenFile)
    requires ThreeFree(s)
    requires f1 != f2 && f1 != f3 && f2 != f3
    requires f1 !in s && f2 !in s && f3 !in s
    ensures var p := PlaceThree(s, f1, f2, f3);
            var calls := MeldCalls(p.fd1, p.fd2, p.fdout);
            && SlotsAfter(p.slots, calls) == s
            && Transferred(p.slots, calls, f1) == 16 && RefChange(p.slots, calls, f1) == 3
            && Transferred(p.slots, calls, f2) == 16 && RefChange(p.slots, calls, f2) == 3
            && Transferred(p.slots, calls, f3) == 32 && RefChange(p.slots, calls, f3) == 7
            && forall g :: g in s ==> Transferred(p.slots, calls, g) == 0 && RefChange(p.slots, calls, g) == 0
  {
    PlaceThreeOnFreeSlots(s, f1, f2, f3);
    MeldApart(s, PlaceThree(s, f1, f2, f3), f1, f2, f3);
  }

  // ---------------------------------------------------------------------
  // meld

  /** The loop of sys_meld: MELD_ROUNDS rounds of read `fd1`, read `fd2`,
      write `fdout`, write `fdout`, each of MELD_CHUNK bytes, with their
      results ignored. `calls` lists the calls made; each record reached
      through the three descriptors moves and gains references as those
      calls say, and the table does not change. */
  method MeldLoop(ft: FileTable, fd1: int, fd2: int, fdout: int, io: nat -> int) returns (ghost calls: seq<Call>)
    requires ft.OkFd(fd1) && ft.slots[fd1] != null
    requires ft.OkFd(fd2) && ft.slots[fd2] != null
    requires ft.OkFd(fdout) && ft.slots[fdout] != null
    modifies ft.slots[fd1], ft.slots[fd2], ft.slots[fdout]
    ensures calls == Rounds(MELD_ROUNDS, fd1, fd2, fdout)
    ensures SlotsAfter(ft.slots[..], calls) == ft.slots[..]
    ensures unchanged(ft.slots)
    ensures forall g :: g in ft.Files() ==>
              && g.offset == old(g.offset) + Transferred(ft.slots[..], calls, g)
              && g.refcount == old(g.refcount) + RefChange(ft.slots[..], calls, g)
  {
    ghost var s := ft.slots[..];
    ghost var F1, F2, F3 := ft.slots[fd1], ft.slots[fd2], ft.slots[fdout];
    ghost var k1, k2, k3 := RoundHits(s, fd1, fd2, fdout, F1), RoundHits(s, fd1, fd2, fdout, F2), RoundHits(s, fd1, fd2, fdout, F3);
    calls := [];
    var i := 0;
    while i < MELD_ROUNDS
      invariant 0 <= i <= MELD_ROUNDS
      invariant calls == Rounds(i, fd1, fd2, fdout)
      invariant F1.offset == old(F1.offset) + i * (MELD_CHUNK * k1)
      invariant F2.offset == old(F2.offset) + i * (MELD_CHUNK * k2)
      invariant F3.offset == old(F3.offset) + i * (MELD_CHUNK * k3)
      invariant F1.refcount == old(F1.refcount) + i * k1
      invariant F2.refcount == old(F2.refcount) + i * k2
      invariant F3.refcount == old(F3.refcount) + i * k3
      modifies F1, F2, F3
    {
      var ret := SysRead(ft, fd1, MELD_CHUNK, io(4 * i));
      ret := SysRead(ft, fd2, MELD_CHUNK, io(4 * i + 1));
      ret := SysWrite(ft, fdout, MELD_CHUNK, io(4 * i + 2));
      ret := SysWrite(ft, fdout, MELD_CHUNK, io(4 * i + 3));
      MulStep(i + 1, MELD_CHUNK * k1);
      MulStep(i + 1, MELD_CHUNK * k2);
      MulStep(i + 1, MELD_CHUNK * k3);
      MulStep(i + 1, k1);
      MulStep(i + 1, k2);
      MulStep(i + 1, k3);
      calls := calls + Round(fd1, fd2, fdout);
      i := i + 1;
    }
    RoundsEffect(s, MELD_ROUNDS, fd1, fd2, fdout, F1);
    forall g | g in ft.Files()
      ensures g.offset == old(g.offset) + Transferred(s, calls, g)
      ensures g.refcount == old(g.refcount) + RefChange(s, calls, g)
    {
      RoundsEffect(s, MELD_ROUNDS, fd1, fd2, fdout, g);
      if g != F1 && g != F2 && g != F3 {
        assert RoundHits(s, fd1, fd2, fdout, g) == 0;
      }
    }
  }

  /** The three closes that end sys_meld, results ignored: the slots are
      emptied one after the other, and each close that finds a record takes
      one reference from it. */
  method CloseThree(ft: FileTable, fd1: int, fd2: int, fdout: int)
    requires ft.OkFd(fd1) && ft.OkFd(fd2) && ft.OkFd(fdout)
    modifies ft.slots, ft.Occupant(fd1), ft.Occupant(fd2), ft.Occupant(fdout)
    ensures ft.slots[..] == AfterClose(AfterClose(AfterClose(old(ft.slots[..]), fd1), fd2), fdout)
    ensures forall g :: g in old(ft.Files()) ==>
              && g.offset == old(g.offset)
              && g.refcount == old(g.refcount) - Hit(old(ft.slots[..]), fd1, g)
                               - Hit(AfterClose(old(ft.slots[..]), fd1), fd2, g)
                               - Hit(AfterClose(AfterClose(old(ft.slots[..]), fd1), fd2), fdout, g)
  {
    ghost var s0 := ft.slots[..];
    var ret := SysClose(ft, fd1);  // the results of the closes are ignored
    ghost var s1 := ft.slots[..];
    ret := SysClose(ft, fd2);
    ghost var s2 := ft.slots[..];
    ret := SysClose(ft, fdout);
  }

  /** What sys_meld does once its three records are placed: the loop, then
      sys_close on `fd1`, `fd2` and `fdout`, every result ignored. `calls`
      lists the calls made; the table and every record in it end up as
      those calls say. */
  method MeldPlaced(ft: FileTable, fd1: int, fd2: int, fdout: int, io: nat -> int) returns (ghost calls: seq<Call>)
    requires ft.OkFd(fd1) && ft.slots[fd1] != null
    requires ft.OkFd(fd2) && ft.slots[fd2] != null
    requires ft.OkFd(fdout) && ft.slots[fdout] != null
    modifies ft.slots, ft.slots[fd1], ft.slots[fd2], ft.slots[fdout]
    ensures calls == MeldCalls(fd1, fd2, fdout)
    ensures ft.slots[..] == SlotsAfter(old(ft.slots[..]), calls)
    ensures forall g :: g in old(ft.Files()) ==>
              && g.offset == old(g.offset) + Transferred(old(ft.slots[..]), calls, g)
              && g.refcount == old(g.refcount) + RefChange(old(ft.slots[..]), calls, g)
  {
    ghost var s := ft.slots[..];
    ghost var rounds := MeldLoop(ft, fd1, fd2, fdout, io);
    CloseThree(ft, fd1, fd2, fdout);
    calls := MeldCalls(fd1, fd2, fdout);
    forall g | g in old(ft.Files())
      ensures g.offset == old(g.offset) + Transferred(s, calls, g)
      ensures g.refcount == old(g.refcount) + RefChange(s, calls, g)
    {
      ClosesEffect(s, rounds, fd1, fd2, fdout, g);
    }
    ClosesEffect(s, rounds, fd1, fd2, fdout, s[fd1]);
  }

  /** sys_meld's three filetable_place calls, results ignored, each writing
      back into a descriptor variable that starts at 0. */
  method PlaceFiles(ft: FileTable, f1: OpenFile, f2: OpenFile, f3: OpenFile) returns (fd1: int, fd2: int, fdout: int)
    requires ft.slots.Length > 0
    modifies ft.slots
    ensures PlaceThree(old(ft.slots[..]), f1, f2, f3) == Placement(ft.slots[..], fd1, fd2, fdout)
    ensures ft.OkFd(fd1) && ft.slots[fd1] != null
    ensures ft.OkFd(fd2) && ft.slots[fd2] != null
    ensures ft.OkFd(fdout) && ft.slots[fdout] != null
    ensures old(ft.Files()) <= ft.Files()
  {
    fd1, fd2, fdout := 0, 0, 0;
    ghost var s0 := ft.slots[..];
    var ok, fd := ft.Place(f1, fd1);  // filetable_place's result is ignored
    fd1 := fd;
    ghost var s1 := ft.slots[..];
    PlacedFdOccupied(s0, f1);
    ok, fd := ft.Place(f2, fd2);
    fd2 := fd;
    ghost var s2 := ft.slots[..];
    PlacedFdOccupied(s1, f2);
    ok, fd := ft.Place(f3, fdout);
    fdout := fd;
    PlacedFdOccupied(s2, f3);
  }

  /** The three placements, then the loop and the closes on the descriptors
      the placements wrote back. Every record in the table, and each new one,
      moves and gains or loses references as the calls made say. */
  method PlaceAndMeld(ft: FileTable, f1: OpenFile, f2: OpenFile, f3: OpenFile, io: nat -> int)
    returns (ghost placed: seq<OpenFile?>, fd1: int, fd2: int, fdout: int, ghost calls: seq<Call>)
    requires ft.slots.Length > 0
    requires f1 != f2 && f1 != f3 && f2 != f3
    requires f1 !in ft.slots[..] && f2 !in ft.slots[..] && f3 !in ft.slots[..]
    modifies ft.slots, ft.Files(), f1, f2, f3
    ensures PlaceThree(old(ft.slots[..]), f1, f2, f3) == Placement(placed, fd1, fd2, fdout)
    ensures calls == MeldCalls(fd1, fd2, fdout)
    ensures ft.slots[..] == SlotsAfter(placed, calls)
    ensures forall g :: (g in old(ft.Files()) || g == f1 || g == f2 || g == f3) ==>
              && g.offset == old(g.offset) + Transferred(placed, calls, g)
              && g.refcount == old(g.refcount) + RefChange(placed, calls, g)
  {
    ghost var s0 := ft.slots[..];
    fd1, fd2, fdout := PlaceFiles(ft, f1, f2, f3);
    placed := ft.slots[..];
    label Placed:
    calls := MeldPlaced(ft, fd1, fd2, fdout, io);
    forall g | g in old(ft.Files()) || g == f1 || g == f2 || g == f3
      ensures g.offset == old(g.offset) + Transferred(placed, calls, g)
      ensures g.refcount == old(g.refcount) + RefChange(placed, calls, g)
    {
      if g !in placed {
        MeldSkips(placed, fd1, fd2, fdout, g);
      }
    }
  }

  /** sys_meld once its three opens have succeeded, on the three new records
      openfile_open gave (offset 0, one reference): PlaceAndMeld, and with
      three empty slots its outcome in closed form. */
  method MeldOpened(ft: FileTable, f1: OpenFile, f2: OpenFile, f3: OpenFile, io: nat -> int)
    returns (ghost placed: seq<OpenFile?>, fd1: int, fd2: int, fdout: int, ghost calls: seq<Call>)
    requires ft.slots.Length > 0
    requires f1 != f2 && f1 != f3 && f2 != f3
    requires f1 !in ft.slots[..] && f2 !in ft.slots[..] && f3 !in ft.slots[..]
    requires f1.offset == 0 && f2.offset == 0 && f3.offset == 0
    requires f1.refcount == 1 && f2.refcount == 1 && f3.refcount == 1
    modifies ft.slots, ft.Files(), f1, f2, f3
    ensures PlaceThree(old(ft.slots[..]), f1, f2, f3) == Placement(placed, fd1, fd2, fdout)
    ensures calls == MeldCalls(fd1, fd2, fdout)
    ensures ft.slots[..] == SlotsAfter(placed, calls)
    ensures forall g :: g in old(ft.Files()) ==>
              && g.offset == old(g.offset) + Transferred(placed, calls, g)
              && g.refcount == old(g.refcount) + RefChange(placed, calls, g)
    ensures && f1.offset == Transferred(placed, calls, f1)
            && f1.refcount == 1 + RefChange(placed, calls, f1)
            && f2.offset == Transferred(placed, calls, f2)
            && f2.refcount == 1 + RefChange(placed, calls, f2)
            && f3.offset == Transferred(placed, calls, f3)
            && f3.refcount == 1 + RefChange(placed, calls, f3)
    ensures ThreeFree(old(ft.slots[..])) ==>
              && ft.slots[..] == old(ft.slots[..])
              && f1.offset == 16 && f2.offset == 16 && f3.offset == 32
              && f1.refcount == 4 && f2.refcount == 4 && f3.refcount == 8
              && forall g :: g in old(ft.Files()) ==> g.offset == old(g.offset) && g.refcount == old(g.refcount)
  {
    placed, fd1, fd2, fdout, calls := PlaceAndMeld(ft, f1, f2, f3, io);
    if ThreeFree(old(ft.slots[..])) {
      // the three records land in their own slots, so the calls touch no
      // record that was already in the table
      PlaceThreeOnFreeSlots(old(ft.slots[..]), f1, f2, f3);
      MeldOnFreeSlots(old(ft.slots[..]), f1, f2, f3);
    }
  }

  /** sys_meld's three openfile_open calls: path1 and path2 read-only,
      pathout write-only, created if missing, appending. The first one that
      fails ends the sequence and its error code is the result; `tried`
      counts the opens made. */
  method OpenThree(path1: string, path2: string, pathout: string, open1: int, open2: int, open3: int)
    returns (result: int, ghost tried: nat, f1: OpenFile?, f2: OpenFile?, f3: OpenFile?)
    ensures result == (if open1 != 0 then open1 else if open2 != 0 then open2 else open3)
    ensures tried == (if open1 != 0 then 1 else if open2 != 0 then 2 else 3)
    ensures result == 0 ==> f1 != null && f2 != null && f3 != null
    ensures result == 0 ==> fresh(f1) && fresh(f2) && fresh(f3)
    ensures result == 0 ==> f1 != f2 && f1 != f3 && f2 != f3
    ensures result == 0 ==> f1.offset == 0 && f2.offset == 0 && f3.offset == 0
    ensures result == 0 ==> f1.refcount == 1 && f2.refcount == 1 && f3.refcount == 1
  {
    tried, f2, f3 := 1, null, null;
    result, f1 := Open(path1, O_RDONLY, 0, open1);
    if result != 0 {
      return;
    }
    tried := 2;
    result, f2 := Open(path2, O_RDONLY, 0, open2);
    if result != 0 {
      return;
    }
    tried := 3;
    result, f3 := Open(pathout, O_WRONLY | O_CREAT | O_APPEND, 0, open3);
  }

  /** sys_meld with the three paths already copied in. `open1`, `open2` and
      `open3` are what openfile_open answers for path1, path2 and pathout,
      and `io(k)` is what the k-th VOP_READ or VOP_WRITE of the loop answers.

      The first failing open ends the call with its error code: no later
      open is tried and the table is left alone. Otherwise the three records
      are placed, each filetable_place writing back into a descriptor
      variable that starts at 0, and sys_meld makes exactly the calls
      MeldCalls lists (four rounds of read, read, write, write of 4 bytes,
      then three closes), returning 0 whatever those calls answer. The
      ghost results name what happened: how many opens were tried, the
      three new records, the slots after the placements, the descriptors
      used and the calls made. */
  method SysMeld(ft: FileTable, path1: string, path2: string, pathout: string,
                 open1: int, open2: int, open3: int, io: nat -> int)
    returns (result: int, ghost tried: nat,
             ghost first: OpenFile?, ghost second: OpenFile?, ghost output: OpenFile?,
             ghost placed: seq<OpenFile?>, ghost fd1: int, ghost fd2: int, ghost fdout: int,
             ghost calls: seq<Call>)
    requires ft.slots.Length > 0
    modifies ft.slots, ft.Files()
    ensures result == (if open1 != 0 then open1 else if open2 != 0 then open2 else open3)
    ensures tried == (if open1 != 0 then 1 else if open2 != 0 then 2 else 3)
    ensures result != 0 ==> calls == [] && unchanged(ft.slots) && unchanged(ft.Files())
    ensures result == 0 ==> first != null && second != null && output != null
    ensures result == 0 ==> fresh(first) && fresh(second) && fresh(output)
    ensures result == 0 ==> first != second && first != output && second != output
    ensures result == 0 ==> PlaceThree(old(ft.slots[..]), first, second, output) == Placement(placed, fd1, fd2, fdout)
    ensures result == 0 ==> calls == MeldCalls(fd1, fd2, fdout)
    ensures result == 0 ==> ft.slots[..] == SlotsAfter(placed, calls)
    ensures result == 0 ==>
              forall g :: g in old(ft.Files()) ==>
                && g.offset == old(g.offset) + Transferred(placed, calls, g)
                && g.refcount == old(g.refcount) + RefChange(placed, calls, g)
    ensures result == 0 ==>
              && first.offset == Transferred(placed, calls, first)
              && first.refcount == 1 + RefChange(placed, calls, first)
              && second.offset == Transferred(placed, calls, second)
              && second.refcount == 1 + RefChange(placed, calls, second)
              && output.offset == Transferred(placed, calls, output)
              && output.refcount == 1 + RefChange(placed, calls, output)
    ensures result == 0 && ThreeFree(old(ft.slots[..])) ==>
              && ft.slots[..] == old(ft.slots[..])
              && first.offset == 16 && second.offset == 16 && output.offset == 32
              && first.refcount == 4 && second.refcount == 4 && output.refcount == 8
              && forall g :: g in old(ft.Files()) ==> g.offset == old(g.offset) && g.refcount == old(g.refcount)
  {
    calls := [];
    first, second, output := null, null, null;
    placed, fd1, fd2, fdout := ft.slots[..], 0, 0, 0;

    ghost var files := ft.Files();
    var firstfile, secondfile, outputfile;
    result, tried, firstfile, secondfile, outputfile := OpenThree(path1, path2, pathout, open1, open2, open3);
    if result != 0 {
      return;
    }
    first, second, output := firstfile, secondfile, outputfile;
    // the opens only allocate: the table and the records in it are as on entry
    assert ft.Files() == files;
    assert forall g :: g in files ==> g.offset == old(g.offset) && g.refcount == old(g.refcount);

    placed, fd1, fd2, fdout, calls := MeldOpened(ft, firstfile, secondfile, outputfile, io);
    result := 0;
  }
}
