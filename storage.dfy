/**
 * A storage provider as the transfer engine sees it: `getFile` and
 * `postFile` over a map from path to bytes. The concrete file-system and
 * object-store backends are replaced by that map plus the failures the
 * backend throws for given paths.
 */
module Storage {
  import opened Wrappers
  import opened AppErrors
  import ErrorTypes

  type Bytes = seq<bv8>

  /** What the file-system providers throw for a path they do not hold. */
  function MissingFile(path: string): (e: Thrown)
    ensures e.AppError? && e.status == ErrorTypes.BAD_REQUEST && e.isTrusted
    ensures |e.message| > 5 + |path| && e.message[..5] == "File " && e.message[5..5 + |path|] == path
  {
    AppError(ErrorTypes.BAD_REQUEST, "File " + path + " doesn't exists in the agreed folder", true)
  }

  /**
   * The outcome of reading `path`: `MissingFile` when it is absent (checked
   * before any I/O), otherwise the failure the backend throws reading it, or
   * the stored bytes.
   */
  function Read(files: map<string, Bytes>, faults: map<string, Thrown>, path: string): (r: Result<Bytes, Thrown>)
    ensures r.Ok? <==> path !in faults && path in files
    ensures r.Ok? ==> r.value == files[path]
    ensures r.Err? ==> r.error == if path !in files then MissingFile(path) else faults[path]
  {
    if path !in files then Err(MissingFile(path))
    else if path in faults then Err(faults[path])
    else Ok(files[path])
  }

  class Provider {
    /** The objects the backend holds. */
    var files: map<string, Bytes>
    /** The paths on which the backend's I/O throws, and what it throws. */
    var faults: map<string, Thrown>

    constructor (files: map<string, Bytes>, faults: map<string, Thrown>)
      ensures this.files == files && this.faults == faults
    {
      this.files := files;
      this.faults := faults;
    }

    /** `getFile(path)`: reads and changes nothing. */
    method GetFile(path: string) returns (r: Result<Bytes, Thrown>)
      ensures r.Ok? <==> path !in faults && path in files
      ensures r == Read(files, faults, path)
    {
      r := Read(files, faults, path);
    }

    /** `postFile(path, data)`: creates or overwrites `path`, unless the backend throws. */
    method PostFile(path: string, data: Bytes) returns (r: Result<(), Thrown>)
      modifies this
      ensures faults == old(faults)
      ensures r.Err? <==> path in faults
      ensures r.Err? ==> r.error == faults[path] && files == old(files)
      ensures r.Ok? ==> files == old(files)[path := data]
    {
      if path in faults {
        r := Err(faults[path]);
      } else {
        files := files[path := data];
        r := Ok(());
      }
    }
  }
}
