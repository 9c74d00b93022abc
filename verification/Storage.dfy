/** A file store whose operations may fail at any time. */
module Storage {
  import opened RasterTypes
  import opened SpoolBody

  /** The two stores agree on every file not named in `paths`. */
  ghost predicate SameElsewhere(a: map<string, seq<Byte>>, b: map<string, seq<Byte>>, paths: set<string>) {
    forall q :: q !in paths ==> (q in a <==> q in b) && (q in a ==> a[q] == b[q])
  }

  /** The contents of a file, or nothing where there is none. */
  function ContentsOf(files: map<string, seq<Byte>>, path: string): seq<Byte> {
    if path in files then files[path] else []
  }

  class Disk {
    var files: map<string, seq<Byte>>
    /** How many operations have failed. */
    ghost var faults: nat

    constructor ()
      ensures files == map[] && faults == 0
    {
      files, faults := map[], 0;
    }

    method Succeeds() returns (ok: bool)
      modifies this`faults
      ensures faults == old(faults) + (if ok then 0 else 1)
    {
      ok := *;
      faults := faults + (if ok then 0 else 1);
    }

    /** Opens for writing and truncates. */
    method Create(path: string) returns (ok: bool)
      modifies this
      ensures faults == old(faults) + (if ok then 0 else 1)
      ensures files == if ok then old(files)[path := []] else old(files)
    {
      ok := Succeeds();
      if ok {
        files := files[path := []];
      }
    }

    /** Overwrites in place; a failed write may leave any bytes in the file. */
    method WriteAt(path: string, offset: nat, bytes: seq<Byte>) returns (ok: bool)
      requires path in files && offset + |bytes| <= |files[path]|
      modifies this
      ensures faults == old(faults) + (if ok then 0 else 1)
      ensures ok ==> files == old(files)[path := Put(old(files[path]), offset, bytes)]
      ensures path in files && SameElsewhere(old(files), files, {path})
      ensures |files[path]| == |old(files[path])|
    {
      ok := Succeeds();
      if ok {
        files := files[path := Put(files[path], offset, bytes)];
      } else {
        var debris: seq<Byte> :| |debris| == |files[path]|;
        files := files[path := debris];
      }
    }

    /** Appends, creating the file if need be; a failed append may leave anything in the file. */
    method Append(path: string, bytes: seq<Byte>) returns (ok: bool)
      modifies this
      ensures faults == old(faults) + (if ok then 0 else 1)
      ensures ok ==> files == old(files)[path := ContentsOf(old(files), path) + bytes]
      ensures path in files && SameElsewhere(old(files), files, {path})
    {
      ok := Succeeds();
      if ok {
        files := files[path := ContentsOf(files, path) + bytes];
      } else {
        var debris: seq<Byte> := *;
        files := files[path := debris];
      }
    }

    /** Grows a file with zero bytes. */
    method Extend(path: string, extra: nat) returns (ok: bool)
      requires path in files
      modifies this
      ensures faults == old(faults) + (if ok then 0 else 1)
      ensures files == if ok then old(files)[path := old(files[path]) + seq(extra, _ => 0)] else old(files)
    {
      ok := Succeeds();
      if ok {
        files := files[path := files[path] + seq(extra, _ => 0)];
      }
    }

    /** Reads exactly `count` bytes, or fails. */
    method Read(path: string, offset: nat, count: nat) returns (bytes: Option<seq<Byte>>)
      modifies this`faults
      ensures old(faults) <= faults
      ensures bytes.Some? ==> path in files && offset + count <= |files[path]|
      ensures bytes.Some? ==> bytes.value == files[path][offset..offset + count] && faults == old(faults)
      ensures bytes.None? ==> old(faults) < faults || path !in files || |files[path]| < offset + count
    {
      var ok := Succeeds();
      if ok && path in files && offset + count <= |files[path]| {
        bytes := Some(files[path][offset..offset + count]);
      } else {
        bytes := None;
      }
    }

    /** Renames; refuses to replace an existing file. */
    method Rename(from: string, to: string) returns (ok: bool)
      modifies this
      ensures !ok ==> files == old(files) && (old(faults) < faults || to in files || from !in files)
      ensures ok ==> from in old(files) && to !in old(files) && files == (old(files) - {from})[to := old(files[from])]
      ensures old(faults) <= faults
      ensures ok ==> faults == old(faults)
    {
      ok := Succeeds();
      if ok {
        if to in files || from !in files {
          ok := false;
        } else {
          files := (files - {from})[to := files[from]];
        }
      }
    }

    /** Removes a file if it can. */
    method Remove(path: string)
      modifies this
      ensures old(faults) <= faults
      ensures files == old(files) - {path} || (old(faults) < faults && files == old(files))
    {
      var ok := Succeeds();
      if ok {
        files := files - {path};
      }
    }
  }
}
