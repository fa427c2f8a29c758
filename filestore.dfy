/** The upload directory as the server sees it through `fs`: a map from path to
    file contents, with the few operations the processing pipeline and the
    handlers perform on it and the errors Node reports when a path is missing. */
module FileSystem {
  import opened Common

  type Files = map<string, Bytes>

  /** The message of the error Node raises for a missing path. */
  function Enoent(syscall: string, path: string): string
  {
    "ENOENT: no such file or directory, " + syscall + " '" + path + "'"
  }

  class FileStore {
    var files: Files

    constructor (initial: Files)
      ensures files == initial
    {
      files := initial;
    }

    /** `fs.access` / `fs.existsSync`. */
    method Exists(path: string) returns (b: bool)
      ensures b <==> path in files
    {
      b := path in files;
    }

    /** `fs.stat(path).size`. */
    method Size(path: string) returns (r: Result<nat>)
      ensures path in files ==> r == Success(|files[path]|)
      ensures path !in files ==> r == Failure(Enoent("stat", path))
    {
      if path in files {
        r := Success(|files[path]|);
      } else {
        r := Failure(Enoent("stat", path));
      }
    }

    /** `fs.readFile`. */
    method ReadFile(path: string) returns (r: Result<Bytes>)
      ensures path in files ==> r == Success(files[path])
      ensures path !in files ==> r == Failure(Enoent("open", path))
    {
      if path in files {
        r := Success(files[path]);
      } else {
        r := Failure(Enoent("open", path));
      }
    }

    /** `fs.writeFile`: creates or replaces the file. */
    method WriteFile(path: string, data: Bytes)
      modifies this
      ensures files == old(files)[path := data]
    {
      files := files[path := data];
    }

    /** `fs.unlink`: fails, changing nothing, when the path is missing. */
    method Unlink(path: string) returns (r: Result<()>)
      modifies this
      ensures path in old(files) ==> r == Success(()) && files == old(files) - {path}
      ensures path !in old(files) ==> r == Failure(Enoent("unlink", path)) && files == old(files)
    {
      if path in files {
        files := files - {path};
        r := Success(());
      } else {
        r := Failure(Enoent("unlink", path));
      }
    }

    /** `fs.rename`: moves the contents to `to`, replacing what was there; a
        rename onto itself changes nothing. */
    method Rename(from: string, to: string) returns (r: Result<()>)
      modifies this
      ensures from in old(files) ==> r == Success(()) && files == Moved(old(files), from, to)
      ensures from !in old(files) ==> r == Failure(Enoent("rename", from)) && files == old(files)
    {
      if from in files {
        files := Moved(files, from, to);
        r := Success(());
      } else {
        r := Failure(Enoent("rename", from));
      }
    }
  }

  /** The directory after a successful rename. */
  function Moved(files: Files, from: string, to: string): (r: Files)
    requires from in files
    ensures to in r && r[to] == files[from]
    ensures from != to ==> from !in r
    ensures forall p :: p != from && p != to ==> (p in r <==> p in files)
    ensures forall p :: p != from && p != to && p in r ==> r[p] == files[p]
  {
    if from == to then files else files[to := files[from]] - {from}
  }
}
