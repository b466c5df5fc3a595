/** The capabilities the downloader drives: Node's synchronous file
    operations, a streaming HTTP client, and an incremental hash. Each is
    modelled only as far as the downloader observes it. Faults are a script
    over the file system's fallible calls (which directories cannot be
    created, which files cannot be opened or deleted, at each call), and the
    network is a script with one response per request. */
module Environment {
  import opened Wrappers

  type byte = b: int | 0 <= b < 0x100
  type Path = string

  /** The error codes the model distinguishes. ENOENT is "no such file or
      directory". EACCES and EPERM stand for any other failure. */
  datatype Code = ENOENT | EACCES | EPERM

  datatype FsOp = Mkdir | Open | Unlink

  /** Errors raised by the capabilities themselves. */
  datatype SystemError =
    | FsError(op: FsOp, path: Path, code: Code)
    | RequestFailed(url: string)
    | StreamError(url: string)
    | DigestUnsupported(algorithm: string)

  // ---------------------------------------------------------------------
  // Paths
  // ---------------------------------------------------------------------

  /** Index of the last '/' in `path`, if there is one. */
  function LastSlash(path: Path): (r: Option<nat>)
    ensures r.Some? ==> r.value < |path| && path[r.value] == '/'
    ensures r.Some? ==> forall j :: r.value < j < |path| ==> path[j] != '/'
    ensures r.None? ==> forall j :: 0 <= j < |path| ==> path[j] != '/'
  {
    if path == [] then None
    else if path[|path| - 1] == '/' then Some(|path| - 1)
    else LastSlash(path[..|path| - 1])
  }

  /** The parent directory of `path`: everything before the last '/'.
      It is "/" for a file directly under the root, and "." for a bare
      file name. */
  function Dirname(path: Path): (dir: Path)
    ensures '/' !in path ==> dir == "."
    ensures '/' in path ==>
              || (dir == "/" && path[0] == '/' && '/' !in path[1..])
              || (0 < |dir| < |path| && dir == path[..|dir|] && path[|dir|] == '/' && '/' !in path[|dir| + 1..])
  {
    match LastSlash(path)
    case None => "."
    case Some(i) =>
      var rest := path[i + 1..];
      assert forall j :: 0 <= j < |rest| ==> rest[j] == path[i + 1 + j];
      if i == 0 then "/" else path[..i]
  }

  // ---------------------------------------------------------------------
  // File system
  // ---------------------------------------------------------------------

  /** Which operations the environment refuses at one moment, and on which
      paths. */
  datatype Faults = Faults(mkdirRefused: set<Path>, openRefused: set<Path>, unlinkRefused: set<Path>)

  /** The faults over time: the n-th fallible call (mkdir, open or unlink,
      counting from 0) is subject to the script's n-th entry. This lets a
      directory or file that was usable on one attempt be refused on
      the next. */
  type FaultScript = nat -> Faults

  /** The error a recursive mkdir of `dir` raises, if any. */
  function MkdirpError(faults: Faults, dir: Path): Option<SystemError>
  {
    if dir in faults.mkdirRefused then Some(FsError(Mkdir, dir, EACCES)) else None
  }

  /** The error opening `path` for writing raises, if any: its directory is
      missing, or the environment refuses to open it. */
  function OpenError(faults: Faults, dirs: set<Path>, path: Path): Option<SystemError>
  {
    if Dirname(path) !in dirs then Some(FsError(Open, path, ENOENT))
    else if path in faults.openRefused then Some(FsError(Open, path, EACCES))
    else None
  }

  /** The error deleting `path` raises, if any: ENOENT for a missing file,
      EPERM for a file the environment refuses to delete. */
  function UnlinkError(faults: Faults, files: map<Path, seq<byte>>, path: Path): Option<SystemError>
  {
    if path !in files then Some(FsError(Unlink, path, ENOENT))
    else if path in faults.unlinkRefused then Some(FsError(Unlink, path, EPERM))
    else None
  }

  /** The descriptor returned by opening a file. */
  class FileHandle {
    const path: Path

    constructor (path: Path)
      ensures this.path == path
    {
      this.path := path;
    }
  }

  /** The file system: file contents by path, existing directories, the
      handles that are currently open, and how many fallible calls have
      been made (the index into the fault script). */
  class FileSystem {
    const faults: FaultScript
    var files: map<Path, seq<byte>>
    var dirs: set<Path>
    var open: set<FileHandle>
    var calls: nat

    constructor (faults: FaultScript, files: map<Path, seq<byte>>, dirs: set<Path>)
      ensures this.faults == faults && this.files == files && this.dirs == dirs
      ensures open == {} && calls == 0
    {
      this.faults := faults;
      this.files := files;
      this.dirs := dirs;
      this.open := {};
      this.calls := 0;
    }

    /** Create `dir`, with its parents, unless it already exists. */
    method Mkdirp(dir: Path) returns (r: Outcome<SystemError>)
      modifies this`dirs, this`calls
      ensures r == OutcomeOf(MkdirpError(faults(old(calls)), dir))
      ensures dirs == if r.Pass? then old(dirs) + {dir} else old(dirs)
      ensures calls == old(calls) + 1
    {
      r := OutcomeOf(MkdirpError(faults(calls), dir));
      if r.Pass? {
        dirs := dirs + {dir};
      }
      calls := calls + 1;
    }

    /** `openSync(path, 'w')`: create the file, or truncate it. */
    method OpenSync(path: Path) returns (r: Result<FileHandle, SystemError>)
      modifies this`files, this`open, this`calls
      ensures r.Failure? <==> OpenError(faults(old(calls)), dirs, path).Some?
      ensures r.Failure? ==> r.error == OpenError(faults(old(calls)), dirs, path).value
                             && files == old(files) && open == old(open)
      ensures r.Success? ==> fresh(r.value) && r.value.path == path
                             && files == old(files)[path := []]
                             && open == old(open) + {r.value}
      ensures calls == old(calls) + 1
    {
      var e := OpenError(faults(calls), dirs, path);
      calls := calls + 1;
      if e.Some? {
        return Failure(e.value);
      }
      var h := new FileHandle(path);
      files := files[path := []];
      open := open + {h};
      return Success(h);
    }

    /** `writeSync(handle, chunk)`: append `chunk` to the open file. */
    method WriteSync(h: FileHandle, chunk: seq<byte>)
      requires h in open && h.path in files
      modifies this`files
      ensures files == old(files)[h.path := old(files)[h.path] + chunk]
    {
      files := files[h.path := files[h.path] + chunk];
    }

    /** `closeSync(handle)`. */
    method CloseSync(h: FileHandle)
      requires h in open
      modifies this`open
      ensures open == old(open) - {h}
    {
      open := open - {h};
    }

    /** `unlinkSync(path)`: delete the file, or raise ENOENT or EPERM. */
    method UnlinkSync(path: Path) returns (r: Outcome<SystemError>)
      modifies this`files, this`calls
      ensures r == OutcomeOf(UnlinkError(faults(old(calls)), old(files), path))
      ensures files == if r.Pass? then old(files) - {path} else old(files)
      ensures calls == old(calls) + 1
    {
      r := OutcomeOf(UnlinkError(faults(calls), files, path));
      if r.Pass? {
        files := files - {path};
      }
      calls := calls + 1;
    }
  }

  // ---------------------------------------------------------------------
  // Transport
  // ---------------------------------------------------------------------

  /** What one streaming request yields. `Refused`: the client rejects the
      request before a response is available. `Reply`: a status and the body
      chunks in arrival order; the stream then ends with 'error' when
      `failed` holds, and with 'end' otherwise. */
  datatype Response =
    | Refused
    | Reply(status: int, chunks: seq<seq<byte>>, failed: bool)

  /** A scripted HTTP client. The n-th request (counting from 0) is answered
      with `script(n)`. Every request's URL is logged. */
  class Transport {
    const script: nat -> Response
    var requests: seq<string>

    constructor (script: nat -> Response)
      ensures this.script == script && requests == []
    {
      this.script := script;
      requests := [];
    }

    method Request(url: string) returns (resp: Response)
      modifies this`requests
      ensures resp == script(|old(requests)|)
      ensures requests == old(requests) + [url]
    {
      resp := script(|requests|);
      requests := requests + [url];
    }
  }

  // ---------------------------------------------------------------------
  // Hashing
  // ---------------------------------------------------------------------

  /** The hash library: the algorithms it knows, and the lower-case hex
      digest it computes for an algorithm and a byte sequence. The digest
      depends on nothing but those two. */
  datatype Crypto = Crypto(algorithms: set<string>, hex: (string, seq<byte>) -> string)

  /** An incremental hash accumulator. `consumed` holds every byte fed so
      far; `Digest` may be taken once. */
  class Hash {
    const crypto: Crypto
    const algorithm: string
    var consumed: seq<byte>
    var finalized: bool

    constructor (crypto: Crypto, algorithm: string)
      requires algorithm in crypto.algorithms
      ensures this.crypto == crypto && this.algorithm == algorithm
      ensures consumed == [] && !finalized
    {
      this.crypto := crypto;
      this.algorithm := algorithm;
      consumed := [];
      finalized := false;
    }

    method Update(chunk: seq<byte>)
      requires !finalized
      modifies this`consumed
      ensures consumed == old(consumed) + chunk
    {
      consumed := consumed + chunk;
    }

    method Digest() returns (hex: string)
      requires !finalized
      modifies this`finalized
      ensures finalized
      ensures hex == crypto.hex(algorithm, consumed)
    {
      finalized := true;
      hex := crypto.hex(algorithm, consumed);
    }
  }

  /** `createHash(algorithm)`: fails for an algorithm the library lacks. */
  method CreateHash(crypto: Crypto, algorithm: string) returns (r: Result<Hash, SystemError>)
    ensures r.Success? <==> algorithm in crypto.algorithms
    ensures r.Failure? ==> r.error == DigestUnsupported(algorithm)
    ensures r.Success? ==> fresh(r.value) && r.value.crypto == crypto && r.value.algorithm == algorithm
                           && r.value.consumed == [] && !r.value.finalized
  {
    if algorithm !in crypto.algorithms {
      return Failure(DigestUnsupported(algorithm));
    }
    var h := new Hash(crypto, algorithm);
    return Success(h);
  }
}
