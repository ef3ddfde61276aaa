/** The open-file record (`struct openfile`) as sys_read, sys_write and
    sys_close use it: a cursor and a reference count that those calls update
    in place. The vnode and the offset lock are not part of this model. */
module OpenFiles {

  class OpenFile {
    /** `of_offset`: where the next read or write starts. */
    var offset: int
    /** `of_refcount`: the number of holders of this record. */
    var refcount: int

    /** A record as openfile_open hands it out: at the start of the file,
        held once, by its opener. */
    constructor ()
      ensures offset == 0 && refcount == 1
    {
      offset := 0;
      refcount := 1;
    }

    /** openfile_incref: one more holder. */
    method Incref()
      modifies this`refcount
      ensures refcount == old(refcount) + 1
    {
      refcount := refcount + 1;
    }

    /** openfile_decref: one holder fewer. */
    method Decref()
      modifies this`refcount
      ensures refcount == old(refcount) - 1
    {
      refcount := refcount - 1;
    }
  }

  /** openfile_open(path, flags, mode, &file). What the file system answers
      for `path` is `outcome`, an error code or 0: on 0 the caller gets a
      fresh record; otherwise it gets that error code and no record. */
  method Open(path: string, flags: bv32, mode: int, outcome: int) returns (result: int, file: OpenFile?)
    ensures result == outcome
    ensures result == 0 ==> file != null && fresh(file) && file.offset == 0 && file.refcount == 1
    ensures result != 0 ==> file == null
  {
    result := outcome;
    if result == 0 {
      file := new OpenFile();
    } else {
      file := null;
    }
  }
}
