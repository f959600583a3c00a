/** The files the provider touches. Any operation may fail the way the operating system lets it. */
module Disks {
  import opened Bytes
  import opened Messages

  type Files = map<FileId, seq<byte>>

  datatype Removal = Removal(file: FileId, ok: bool)

  datatype Operation = MakeFolder | GetSize | OpenToRead | OpenToWrite | Read | Write | Close | Remove

  /** Only `file` may differ between the two. */
  predicate OthersKept(a: Files, b: Files, file: FileId) {
    a - {file} == b - {file}
  }

  lemma OthersSame(a: Files, file: FileId)
    ensures OthersKept(a, a, file)
  {
  }

  lemma OthersTwice(a: Files, b: Files, c: Files, file: FileId)
    requires OthersKept(a, b, file) && OthersKept(b, c, file)
    ensures OthersKept(a, c, file)
  {
  }

  lemma OtherFile(a: Files, b: Files, file: FileId, other: FileId)
    requires OthersKept(a, b, file) && other != file
    ensures other in a <==> other in b
    ensures other in a ==> a[other] == b[other]
  {
    assert other in a <==> other in a - {file};
    assert other in b <==> other in b - {file};
    if other in a {
      assert (a - {file})[other] == a[other] && (b - {file})[other] == b[other];
    }
  }

  class Disk {
    var files: Files
    ghost var removals: seq<Removal>    // the removals tried, and the system's answers
    ghost var refused: seq<Operation>   // what the system refused to do
    ghost var open: set<FileId>         // what the provider has open
    ghost var folders: set<string>      // the folders it made or found there

    constructor (files: Files)
      ensures this.files == files && removals == [] && refused == [] && open == {} && folders == {}
    {
      this.files, removals, refused, open, folders := files, [], [], {}, {};
    }

    /** The record after one more operation. */
    ghost function Answered(op: Operation, ok: bool): seq<Operation>
      reads this`refused
    {
      if ok then refused else refused + [op]
    }

    /** `os.makedirs`, content with a folder that is there. */
    method MakeFolder(folder: string) returns (ok: bool)
      modifies this`refused, this`folders
      ensures refused == old(Answered(Operation.MakeFolder, ok))
      ensures folders == if ok then old(folders) + {folder} else old(folders)
    {
      ok := *;
      refused, folders := Answered(Operation.MakeFolder, ok), if ok then folders + {folder} else folders;
    }

    /** `os.path.getsize`. */
    method GetSize(file: FileId) returns (ok: bool, size: nat)
      modifies this`refused
      ensures refused == old(Answered(Operation.GetSize, ok))
      ensures ok ==> file in files && size == |files[file]|
    {
      ok, size := *, 0;
      ok := ok && file in files;
      if ok {
        size := |files[file]|;
      }
      refused := Answered(Operation.GetSize, ok);
    }

    /** `open(path, "rb")`. */
    method OpenRead(file: FileId) returns (ok: bool)
      modifies this`refused, this`open
      ensures refused == old(Answered(OpenToRead, ok))
      ensures open == if ok then old(open) + {file} else old(open)
      ensures ok ==> file in files
    {
      ok := *;
      ok := ok && file in files;
      refused, open := Answered(OpenToRead, ok), if ok then open + {file} else open;
    }

    /** `open(path, "wb")`: creates the file, or empties it. */
    method OpenWrite(file: FileId) returns (ok: bool)
      modifies this`files, this`refused, this`open
      ensures refused == old(Answered(OpenToWrite, ok))
      ensures open == if ok then old(open) + {file} else old(open)
      ensures files == if ok then old(files)[file := []] else old(files)
      ensures OthersKept(files, old(files), file)
    {
      ok := *;
      if ok {
        files := files[file := []];
      }
      refused, open := Answered(OpenToWrite, ok), if ok then open + {file} else open;
    }

    /** `src.read(limit)` at `offset`: short, or empty, at the end of the file only. */
    method Read(file: FileId, offset: nat, limit: nat) returns (ok: bool, chunk: seq<byte>)
      requires file in files && offset <= |files[file]|
      modifies this`refused
      ensures refused == old(Answered(Operation.Read, ok))
      ensures var end := if offset + limit <= |files[file]| then offset + limit else |files[file]|;
              ok ==> chunk == files[file][offset..end]
    {
      ok, chunk := *, [];
      if ok {
        var end := if offset + limit <= |files[file]| then offset + limit else |files[file]|;
        chunk := files[file][offset..end];
      }
      refused := Answered(Operation.Read, ok);
    }

    /** `dst.write(chunk)`: all of it, or a failure after some of it. */
    method Append(file: FileId, chunk: seq<byte>) returns (ok: bool)
      requires file in files
      modifies this`files, this`refused
      ensures refused == old(Answered(Write, ok))
      ensures ok ==> files == old(files)[file := old(files)[file] + chunk]
      ensures file in files && OthersKept(files, old(files), file)
    {
      ok := *;
      var n: int := *;
      if ok || n < 0 || n > |chunk| {
        n := |chunk|;
      }
      files := files[file := files[file] + chunk[..n]];
      assert chunk[..|chunk|] == chunk;
      refused := Answered(Write, ok);
    }

    /** Closes a file that was read, or one that another exception is leaving. */
    ghost method Release(file: FileId)
      modifies this`open
      ensures open == old(open) - {file}
    {
      open := open - {file};
    }

    /** Closing writes out what is left; it may fail and leave less. */
    method Close(file: FileId) returns (ok: bool)
      requires file in files
      modifies this`files, this`refused, this`open
      ensures open == old(open) - {file}
      ensures refused == old(Answered(Operation.Close, ok))
      ensures ok ==> files == old(files)
      ensures file in files && OthersKept(files, old(files), file)
    {
      ok := *;
      var n: int := *;
      if !ok && 0 <= n <= |files[file]| {
        files := files[file := files[file][..n]];
      }
      refused, open := Answered(Operation.Close, ok), open - {file};
    }

    /** `os.remove`. */
    method Remove(file: FileId) returns (ok: bool)
      modifies this`files, this`removals, this`refused
      ensures refused == old(Answered(Operation.Remove, ok))
      ensures ok ==> file in old(files) && file !in files
      ensures OthersKept(files, old(files), file)
      ensures !ok ==> files == old(files)
      ensures removals == old(removals) + [Removal(file, ok)]
    {
      ok := *;
      ok := ok && file in files;
      if ok {
        files := files - {file};
      }
      removals, refused := removals + [Removal(file, ok)], Answered(Operation.Remove, ok);
    }
  }
}
