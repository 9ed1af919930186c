/** The registry of active files: one append-only file per stream, each on a path never used before. */
module FileRegistry {
  import opened DataModel

  /** `files` maps a stream to the path of its active file, `disk` is the content of every file that
      exists, and every path from `next` on is unused. */
  datatype Registry = Registry(files: map<StreamId, Path>, disk: map<Path, Bytes>, next: Path)

  function Written(reg: Registry, id: StreamId, bytes: Bytes): Registry {
    if id in reg.files then
      var path := reg.files[id];
      reg.(disk := reg.disk[path := (if path in reg.disk then reg.disk[path] else []) + bytes])
    else
      Registry(reg.files[id := reg.next], reg.disk[reg.next := bytes], reg.next + 1)
  }

  /** How a disk may fail a write: a new file is not created, or some bytes other than those asked for land in
      the file. */
  datatype WriteFault = NoFault | CreateFails | WriteFails(landed: Bytes)

  predicate Refused(reg: Registry, id: StreamId, fault: WriteFault) {
    fault.WriteFails? || (fault.CreateFails? && id !in reg.files)
  }

  /** A file that was created stays registered even if the write to it fails. */
  function AfterWrite(reg: Registry, id: StreamId, bytes: Bytes, fault: WriteFault): Registry {
    if fault.WriteFails? then Written(reg, id, fault.landed)
    else if Refused(reg, id, fault) then reg
    else Written(reg, id, bytes)
  }

  function Forgotten(reg: Registry, ids: set<StreamId>): Registry {
    reg.(files := reg.files - ids)
  }

  function ContentOf(reg: Registry, id: StreamId): Bytes {
    if id in reg.files && reg.files[id] in reg.disk then reg.disk[reg.files[id]] else []
  }

  /** What a write leaves, said of the files: the stream has a file, on its old path or on a fresh one, that has grown by
      the bytes, or by whatever landed; no other file has changed. Only a failure to create leaves everything as it was. */
  lemma WriteLeaves(reg: Registry, id: StreamId, bytes: Bytes, fault: WriteFault)
    requires id in reg.files ==> reg.files[id] in reg.disk
    ensures var reg' := AfterWrite(reg, id, bytes, fault);
            if fault.CreateFails? && id !in reg.files then reg' == reg
            else
              && reg'.files.Keys == reg.files.Keys + {id} && reg'.files[id] in reg'.disk
              && reg'.files[id] == (if id in reg.files then reg.files[id] else reg.next)
              && ContentOf(reg', id) == ContentOf(reg, id) + (if fault.WriteFails? then fault.landed else bytes)
              && reg'.next == (if id in reg.files then reg.next else reg.next + 1)
              && (forall other | other in reg.files :: reg'.files[other] == reg.files[other])
              && forall p | p != reg'.files[id] :: p in reg'.disk <==> p in reg.disk
    ensures var reg' := AfterWrite(reg, id, bytes, fault);
            forall p | p in reg.disk && (id in reg'.files ==> p != reg'.files[id]) ::
              p in reg'.disk && reg'.disk[p] == reg.disk[p]
  {
    assert forall b: Bytes :: [] + b == b;
  }

  class DiskFileRegistry {
    var files: map<StreamId, Path>
    var disk: map<Path, Bytes>
    var next: Path

    function View(): Registry
      reads this
    {
      Registry(files, disk, next)
    }

    constructor (disk: map<Path, Bytes>, next: Path)
      ensures View() == Registry(map[], disk, next)
    {
      this.files, this.disk, this.next := map[], disk, next;
    }

    /** Appends to the stream's file, creating it first if there is none. */
    method WriteAll(id: StreamId, bytes: Bytes, fault: WriteFault) returns (res: Result<()>)
      modifies this
      ensures res == if Refused(old(View()), id, fault) then Err(IO) else Ok(())
      ensures View() == AfterWrite(old(View()), id, bytes, fault)
    {
      if id !in files {
        if fault.CreateFails? {
          return Err(IO);
        }
        files := files[id := next];
        disk := disk[next := []];
        next := next + 1;
      }
      var path := files[id];
      var content := if path in disk then disk[path] else [];
      assert forall b: Bytes :: [] + b == b;
      if fault.WriteFails? {
        disk := disk[path := content + fault.landed];
        return Err(IO);
      }
      disk := disk[path := content + bytes];
      return Ok(());
    }

    /** Takes the stream's file out of the registry; it stays on disk. */
    method Close(id: StreamId, diskFails: bool) returns (res: Result<Path>)
      modifies this
      ensures res == if id !in old(files) then Err(FileRegistry)
                     else if diskFails then Err(IO) else Ok(old(files)[id])
      ensures View() == Forgotten(old(View()), {id})
    {
      if id !in files {
        assert files - {id} == files;
        return Err(FileRegistry);
      }
      var path := files[id];
      files := files - {id};
      if diskFails {
        return Err(IO);
      }
      return Ok(path);
    }

    method Revoke(id: StreamId) returns (res: Option<Path>)
      modifies this
      ensures res == if id in old(files) then Some(old(files)[id]) else None
      ensures View() == Forgotten(old(View()), {id})
    {
      res := None;
      if id in files {
        res := Some(files[id]);
      }
      files := files - {id};
    }

    /** Deletion of a file by the event loop. */
    method RemoveFile(path: Path)
      modifies this
      ensures View() == old(View()).(disk := old(disk) - {path})
    {
      disk := disk - {path};
    }
  }
}
