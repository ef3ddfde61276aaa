# OS/161 file system calls, modelled in Dafny

This project models the file-related system calls of an OS/161 kernel,
`kern/syscall/file_syscalls.c`:

- `sys_open`: the open-flag mask test, then `openfile_open` and `filetable_place`.
- `sys_read` and `sys_write`: they find the open-file record of a descriptor,
  call the vnode layer, move the record's offset and bump its reference count.
- `sys_close`: it empties a slot of the file table and drops one reference
  from the record that was there.
- `sys_meld`: it opens three files, places them in the table, runs a fixed
  loop of four rounds (read, read, write, write of 4 bytes each), then closes
  the three descriptors.

The per-process file table is a class over an array of optional references to
open-file records (`FileTables.FileTable`). An open-file record is a class
with a mutable `offset` and `refcount` (`OpenFiles.OpenFile`). The syscalls
are methods that change both in place. The collaborators whose code is not
part of this model get small bodies with the contracts their names and call
sites imply:

- `filetable_okfd`, `filetable_get`, `filetable_put`, `filetable_placeat` and
  `filetable_place` operate on the table.
- `openfile_open`, `openfile_incref` and `openfile_decref` operate on records.

What the outside world answers is a parameter:

- the error code `openfile_open` gives for a path;
- the results of `VOP_READ` and `VOP_WRITE`;
- for `sys_meld`, the three open results and a function `io` giving the k-th
  read or write result of its loop.

Open flags are the 32-bit pattern of the C `int`, with OS/161's values
(`O_ACCMODE` 3, `O_CREAT` 4, `O_EXCL` 8, `O_TRUNC` 16, `O_APPEND` 32,
`O_NOCTTY` 64). The table's size is left open: `filetable_create` is not
called by these syscalls, so the model has no constructor for the table and
does not fix `OPEN_MAX`.

`sys_meld` is specified by the list of calls it makes (`MeldCalls`) and by
three functions that replay such a list on the table's slots:

- `SlotsAfter` gives the slots after the calls;
- `Transferred` gives how far the calls move a record's offset;
- `RefChange` gives how they change a record's reference count.

The lemmas then compute these in closed form: 16, 16 and 32 bytes for the two
sources and the output, and 3, 3 and 7 references. `MeldOnFreeSlots` shows
that with three free slots the table ends as it was before the call.

Where the code departs from the usual POSIX behaviour of `open`, `read`,
`write` and `close`, the model follows the code:

- `sys_read` and `sys_write` move the offset by the requested size, whatever
  the vnode layer transferred (lines 87 and 123).
- Every read and write leaves one extra reference on the record (lines 88 and
  125), so a record used by `sys_meld` keeps references after its close.
- `sys_meld` always runs exactly four rounds, whatever the reads return
  (line 196). It ignores every result of placement, read, write and close.
- `sys_open` returns 0 after `filetable_place` even when the table is full. In
  that case it does not release the new record and does not write a
  descriptor back.
- A failed open in `sys_meld` returns at once. Records opened before it are
  not released.
- `sys_open` refuses bad flags with -1, not an error code.

## Model

| member | source | states |
|---|---|---|
| OpenFlags.ValidOpenFlags | kern/syscall/file_syscalls.c:45 | the mask test `(flags & allflags) == flags` accepts exactly the bit patterns below 128, so any negative `int` is refused |
| OpenFlags.ValidOpenFlagsBits | kern/syscall/file_syscalls.c:31 | the mask test accepts `flags` exactly when every bit set in `flags` is one of O_ACCMODE, O_CREAT, O_EXCL, O_TRUNC, O_APPEND, O_NOCTTY |
| OpenFiles.Open | kern/syscall/file_syscalls.c:46 | openfile_open returns the file system's answer; on 0 the caller gets a fresh record at offset 0 held once, otherwise no record |
| OpenFiles.OpenFile.Incref | kern/syscall/file_syscalls.c:88 | openfile_incref adds exactly one reference and changes nothing else |
| OpenFiles.OpenFile.Decref | kern/syscall/file_syscalls.c:157 | openfile_decref takes exactly one reference and changes nothing else |
| FileTables.LowestFree | kern/syscall/file_syscalls.c:54 | the slot filetable_place picks is empty and every slot below it is occupied; it is the table size when no slot is empty |
| FileTables.PlaceSlots | kern/syscall/file_syscalls.c:54 | placing stores the record in the lowest empty slot, changes no other slot and never overwrites an occupied one; a full table is unchanged |
| FileTables.PlacedFd | kern/syscall/file_syscalls.c:54 | the descriptor written back is an empty slot in range, or the caller's value untouched when the table is full |
| FileTables.PlacedFdOccupied | kern/syscall/file_syscalls.c:191-193 | with a descriptor variable starting at 0, after a placement it names an occupied slot: the new one, or slot 0 of a full table |
| FileTables.FileTable.OkFd | kern/syscall/file_syscalls.c:144 | filetable_okfd accepts exactly the descriptors 0 <= fd < the table size |
| FileTables.FileTable.FindFree | kern/syscall/file_syscalls.c:54 | the loop that searches the table returns the lowest empty slot |
| FileTables.FileTable.Place | kern/syscall/file_syscalls.c:191-193 | filetable_place succeeds exactly when some slot is empty; the table becomes PlaceSlots of the old one and the descriptor PlacedFd |
| FileTables.FileTable.Get | kern/syscall/file_syscalls.c:78 | filetable_get returns the record in the descriptor's slot |
| FileTables.FileTable.Put | kern/syscall/file_syscalls.c:91 | filetable_put hands back the record filetable_get gave out and leaves every slot as it was |
| FileTables.FileTable.PlaceAt | kern/syscall/file_syscalls.c:149 | filetable_placeat returns the old occupant and changes only the one slot |
| FileSyscalls.SysOpen | kern/syscall/file_syscalls.c:28-57 | bad flags return -1 without opening and leave the table alone; an open error is returned as it is and the table is left alone; otherwise the new record is placed in the lowest empty slot, its descriptor written back, and 0 returned even when the table is full |
| FileSyscalls.SysRead | kern/syscall/file_syscalls.c:62-94 | returns VOP_READ's answer unchanged; the offset moves by the requested size and the record gains exactly one reference, whatever VOP_READ answered; no slot changes |
| FileSyscalls.SysWrite | kern/syscall/file_syscalls.c:99-133 | returns VOP_WRITE's answer unchanged; the offset moves by the requested size and the record gains exactly one reference; no slot changes |
| FileSyscalls.CloseResult | kern/syscall/file_syscalls.c:144-159 | sys_close returns 0 exactly when the descriptor is in range and its slot is occupied, and -1 otherwise |
| FileSyscalls.AfterClose | kern/syscall/file_syscalls.c:144-149 | after sys_close the descriptor's slot is empty and every other slot is as it was; a bad descriptor changes nothing |
| FileSyscalls.SysClose | kern/syscall/file_syscalls.c:138-160 | returns CloseResult; the slots become AfterClose of the old ones; the old occupant loses exactly one reference, and no other record may change |
| FileSyscalls.CloseTwiceFails | kern/syscall/file_syscalls.c:149-154 | closing the same descriptor a second time returns -1 and changes nothing |
| FileSyscalls.OpenThenCloseRestores | kern/syscall/file_syscalls.c:144-159 | on a table with an empty slot, closing the descriptor sys_open wrote back succeeds and restores the table exactly |
| FileSyscalls.Rounds | kern/syscall/file_syscalls.c:196-202 | n rounds of the loop make 4n calls |
| FileSyscalls.RoundEffect | kern/syscall/file_syscalls.c:197-200 | one round leaves the slots alone and moves a record by 4 bytes and one reference for each of its four calls whose descriptor holds it |
| FileSyscalls.RoundsEffect | kern/syscall/file_syscalls.c:196-202 | n rounds leave the slots alone; a record moves by 4n bytes and gains n references per descriptor of the round that holds it |
| FileSyscalls.ClosesEffect | kern/syscall/file_syscalls.c:205-207 | the three closes empty the slots in order, move no offset, and take one reference for each close that finds the record |
| FileSyscalls.MeldCallsEffect | kern/syscall/file_syscalls.c:195-207 | all of meld's calls end with the three slots empty; each source descriptor moves its record by 16 and the output by 32, with 4, 4 and 8 references less one per close that finds it |
| FileSyscalls.PlaceBelow | kern/syscall/file_syscalls.c:191-193 | a placement with an empty slot at `b` lands in an empty slot at or below `b`, stores the record there and changes no other slot |
| FileSyscalls.PlaceThreeAt | kern/syscall/file_syscalls.c:191-193 | with empty slots at three distinct positions the three placements land in three distinct, previously empty slots, and no other slot changes |
| FileSyscalls.PlaceThreeOnFreeSlots | kern/syscall/file_syscalls.c:191-193 | with three empty slots the three placements land in distinct, previously empty slots, and no other slot changes |
| FileSyscalls.ClosingApartRestores | kern/syscall/file_syscalls.c:191-207 | when the three records went to three distinct empty slots, closing their descriptors gives back the table as it was before the placements |
| FileSyscalls.MeldSkips | kern/syscall/file_syscalls.c:195-207 | meld's calls empty the three descriptors' slots and neither move nor reference a record that is in none of the slots |
| FileSyscalls.MeldApart | kern/syscall/file_syscalls.c:191-207 | when three new records went to three distinct empty slots, meld's calls restore the table, move the records by 16, 16 and 32, give them 3, 3 and 7 references, and touch no record already in the table |
| FileSyscalls.MeldOnFreeSlots | kern/syscall/file_syscalls.c:191-207 | with three empty slots and three new records, meld's calls leave the table as it was before the placements; the new records move by 16, 16 and 32 and gain 3, 3 and 7 references; no record already in the table changes |
| FileSyscalls.MeldLoop | kern/syscall/file_syscalls.c:196-202 | the loop makes exactly Rounds(4) of the calls, changes no slot, and moves each of the three records as Transferred and RefChange say |
| FileSyscalls.CloseThree | kern/syscall/file_syscalls.c:205-207 | the three closes empty the slots one after another; each close that finds a record takes one reference from it, and no offset moves |
| FileSyscalls.MeldPlaced | kern/syscall/file_syscalls.c:195-207 | after the placements, meld makes exactly MeldCalls; the table and every record in it end as SlotsAfter, Transferred and RefChange say |
| FileSyscalls.PlaceFiles | kern/syscall/file_syscalls.c:191-193 | the three placements give PlaceThree of the old slots, and the three descriptors name occupied slots |
| FileSyscalls.PlaceAndMeld | kern/syscall/file_syscalls.c:191-207 | the three placements give PlaceThree of the old slots, then meld makes exactly MeldCalls on the descriptors written back; the table and every old or new record end as SlotsAfter, Transferred and RefChange say |
| FileSyscalls.MeldOpened | kern/syscall/file_syscalls.c:191-209 | once the opens succeed with three new records at offset 0 and one reference each, the table and every record end as meld's calls say; with three empty slots the table is restored, the new records end at offsets 16, 16 and 32 with 4, 4 and 8 references, and the old records are unchanged |
| FileSyscalls.OpenThree | kern/syscall/file_syscalls.c:182-189 | the three opens run in order and stop at the first error, whose code is returned; when all succeed the three records are fresh, distinct, at offset 0 and held once |
| FileSyscalls.SysMeld | kern/syscall/file_syscalls.c:164-211 | returns the first failing open's code without trying the later opens or touching the table; otherwise returns 0 after placing three distinct fresh records and making exactly MeldCalls; with three empty slots the table ends as before, the records have offsets 16, 16 and 32 and reference counts 4, 4 and 8, and no other record changes |

## Left out

- The offset locks (`lock_acquire` and `lock_release` at lines 81, 90, 116 and 128). The model is sequential and each call is atomic.
- `copyinstr`, `kmalloc` and the leaked path and buffer allocations (lines 41-44 and 171-180). Paths are passed in already copied.
- `uio_kinit` and what `VOP_READ` and `VOP_WRITE` transfer. File contents are not modelled; their result is a parameter.
- The code of `openfile_open`, `filetable_place`, `filetable_get`, `filetable_put`, `filetable_okfd` and `filetable_placeat`. These files are not part of this model. Each gets a small body that follows its name and call sites. `filetable_place` is modelled as choosing the lowest empty slot.
- FileTables.FileTable.Place: the error code `filetable_place` returns is modelled as a bool, since no caller looks at it.
- OpenFiles.OpenFile.Decref: the destruction of a record whose count reaches 0 is not modelled. The count is only decremented.
- The `curproc` global. The file table is an explicit parameter.
- FileSyscalls.SysRead: the code does not check the result of `filetable_get` (line 78). So a valid, occupied descriptor is a precondition, not an invented error path.
- FileSyscalls.SysWrite: the code does not check the result of `filetable_get` (line 113). So a valid, occupied descriptor is a precondition, not an invented error path.
- FileSyscalls.SysRead: `size_t` and the 64-bit `off_t` offset are unbounded integers, so offset overflow is not modelled.
- FileSyscalls.SysWrite: `size_t` and the 64-bit `off_t` offset are unbounded integers, so offset overflow is not modelled.
- FileSyscalls.SysMeld: the closed-form results (16, 16, 32 and 4, 4, 8) are stated only for a table with three empty slots. For a fuller table the general contract gives them through `Transferred` and `RefChange` of the descriptors actually used.
- The values of `kern/fcntl.h` are taken as OS/161 defines them. That header is not part of this model.
- `filetable_create` and `OPEN_MAX` (`kern/limits.h`). None of these syscalls creates a table, so the table size is left open.
