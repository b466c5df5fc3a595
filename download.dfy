/** The checksum-verified, retrying downloader (`download` and `tryUnlink`
    in src/dev/build/lib/download.ts).

    One call validates the checksum, creates the destination's directory,
    opens (truncates) the destination, and then runs the guarded region:
    request, status check, stream every chunk into the hash and the file,
    compare the hex digest. The handle is closed whatever happened. A failed
    attempt deletes the file and either retries with one retry fewer or
    rethrows its own error.

    `Download` is the imperative model. `DownloadSpec` is the same behaviour
    as a function of the environment and the world before the call. The
    method is proved equal to it, and the lemmas below state what the
    downloader promises about it. */
module Download {
  import opened Wrappers
  import opened Environment

  /** What a call can fail with. */
  datatype Error =
    | System(cause: SystemError)
    | ChecksumNotProvided(algorithm: string, url: string)
    | UnexpectedStatus(status: int, url: string)
    | ChecksumMismatch(downloaded: string, algorithm: string)

  /** The caller's options. `shaChecksum` is `None` when the caller passed
      none. `retries` is `None` when it was left out. */
  datatype DownloadOptions = DownloadOptions(
    url: string,
    destination: Path,
    shaChecksum: Option<string>,
    shaAlgorithm: string,
    retries: Option<int>)

  /** `!shaChecksum`: absent or empty. A checksum that is not missing is a
      non-empty string. */
  predicate ChecksumMissing(checksum: Option<string>)
    ensures !ChecksumMissing(checksum) ==> checksum.Some? && |checksum.value| > 0
  {
    checksum.None? || checksum.value == ""
  }

  /** `retries` with its default of 0. */
  function Retries(o: DownloadOptions): (n: int)
    ensures o.retries.None? ==> n == 0
    ensures o.retries.Some? ==> n == o.retries.value
  {
    if o.retries.Some? then o.retries.value else 0
  }

  /** How many retries the call may still make: only a positive count
      allows any. */
  function Budget(o: DownloadOptions): (n: nat)
    ensures n > 0 <==> Retries(o) > 0
    ensures n > 0 ==> n == Retries(o)
  {
    if Retries(o) > 0 then Retries(o) else 0
  }

  /** The options the retry is made with: the same URL, destination,
      checksum and algorithm, one retry fewer. */
  function Retried(o: DownloadOptions): (o': DownloadOptions)
    ensures o'.url == o.url && o'.destination == o.destination
    ensures o'.shaChecksum == o.shaChecksum && o'.shaAlgorithm == o.shaAlgorithm
    ensures Retries(o') == Retries(o) - 1
    ensures Retries(o) > 0 ==> Budget(o') == Budget(o) - 1
  {
    o.(retries := Some(Retries(o) - 1))
  }

  /** A failure of the guarded region, which the downloader retries. This
      excludes a missing checksum and failures to create the directory, open
      the file or delete it. */
  predicate AttemptFailure(e: Error)
  {
    e.UnexpectedStatus? || e.ChecksumMismatch? || (e.System? && !e.cause.FsError?)
  }

  /** The chunks of a stream joined in arrival order. */
  function Concat(chunks: seq<seq<byte>>): seq<byte>
  {
    if chunks == [] then [] else Concat(chunks[..|chunks| - 1]) + chunks[|chunks| - 1]
  }

  /** Joining two consecutive stretches of a stream gives the bytes of the
      whole stream. */
  lemma {:induction false} ConcatAppend(a: seq<seq<byte>>, b: seq<seq<byte>>)
    decreases |b|
    ensures Concat(a + b) == Concat(a) + Concat(b)
  {
    if b == [] {
      assert a + b == a;
    } else {
      assert (a + b)[..|a + b| - 1] == a + b[..|b| - 1];
      ConcatAppend(a, b[..|b| - 1]);
    }
  }

  /** Chunks land in arrival order: the bytes of the first `k` chunks are
      followed by the bytes of chunk `k` and then by those of the rest. */
  lemma {:induction false} ConcatInOrder(chunks: seq<seq<byte>>, k: nat)
    requires k < |chunks|
    ensures Concat(chunks) == Concat(chunks[..k]) + chunks[k] + Concat(chunks[k + 1..])
    ensures Concat(chunks[..k]) + chunks[k] <= Concat(chunks)
  {
    var one: seq<seq<byte>> := [chunks[k]];
    assert chunks == chunks[..k] + (one + chunks[k + 1..]);
    ConcatAppend(chunks[..k], one + chunks[k + 1..]);
    ConcatAppend(one, chunks[k + 1..]);
    assert one[..0] == [];
    assert Concat(one) == Concat([]) + chunks[k];
  }

  // ---------------------------------------------------------------------
  // One attempt
  // ---------------------------------------------------------------------

  /** What the guarded region of one attempt writes to the freshly
      truncated file, and the error it throws, if any. */
  datatype Attempt = Attempt(written: seq<byte>, error: Option<Error>)

  /** The guarded region, given the response it received. */
  function AttemptSpec(crypto: Crypto, resp: Response, url: string, algorithm: string, checksum: string): (a: Attempt)
    ensures a.error.None? <==>
              && resp.Reply? && resp.status == 200 && !resp.failed
              && algorithm in crypto.algorithms
              && crypto.hex(algorithm, Concat(resp.chunks)) == checksum
    ensures a.error.Some? ==> AttemptFailure(a.error.value)
    ensures a.written == if resp.Reply? && resp.status == 200 && algorithm in crypto.algorithms
                         then Concat(resp.chunks) else []
  {
    match resp
    case Refused => Attempt([], Some(System(RequestFailed(url))))
    case Reply(status, chunks, failed) =>
      if status != 200 then Attempt([], Some(UnexpectedStatus(status, url)))
      else if algorithm !in crypto.algorithms then Attempt([], Some(System(DigestUnsupported(algorithm))))
      else
        var bytes := Concat(chunks);
        if failed then Attempt(bytes, Some(System(StreamError(url))))
        else
          var downloaded := crypto.hex(algorithm, bytes);
          if downloaded != checksum then Attempt(bytes, Some(ChecksumMismatch(downloaded, algorithm)))
          else Attempt(bytes, None)
  }

  /** The guarded region (the `try` block): request, status check, stream
      every chunk into the hash and the open file, compare the digest. The
      thrown error is returned rather than raised. */
  method Transfer(fs: FileSystem, net: Transport, crypto: Crypto, h: FileHandle,
                  url: string, algorithm: string, checksum: string)
    returns (error: Option<Error>)
    requires h in fs.open && h.path in fs.files
    modifies fs`files, net`requests
    ensures net.requests == old(net.requests) + [url]
    ensures var a := AttemptSpec(crypto, net.script(|old(net.requests)|), url, algorithm, checksum);
            error == a.error && fs.files == old(fs.files)[h.path := old(fs.files)[h.path] + a.written]
  {
    assert fs.files[h.path] + [] == fs.files[h.path];
    assert fs.files[h.path := fs.files[h.path]] == fs.files;
    var response := net.Request(url);
    if response.Refused? {
      return Some(System(RequestFailed(url)));
    }
    if response.status != 200 {
      return Some(UnexpectedStatus(response.status, url));
    }
    var created := CreateHash(crypto, algorithm);
    if created.Failure? {
      return Some(System(created.error));
    }
    var hash := created.value;
    var chunks := response.chunks;
    var i := 0;
    assert chunks[..0] == [];
    while i < |chunks|
      invariant 0 <= i <= |chunks|
      invariant hash.consumed == Concat(chunks[..i]) && !hash.finalized
      invariant fs.files == old(fs.files)[h.path := old(fs.files)[h.path] + Concat(chunks[..i])]
      invariant net.requests == old(net.requests) + [url]
    {
      assert chunks[..i + 1][..i] == chunks[..i];
      assert Concat(chunks[..i + 1]) == Concat(chunks[..i]) + chunks[i];
      assert old(fs.files)[h.path] + Concat(chunks[..i + 1])
          == old(fs.files)[h.path] + Concat(chunks[..i]) + chunks[i];
      hash.Update(chunks[i]);
      fs.WriteSync(h, chunks[i]);
      i := i + 1;
    }
    assert chunks[..i] == chunks;
    if response.failed {
      return Some(System(StreamError(url)));
    }
    var downloaded := hash.Digest();
    if downloaded != checksum {
      return Some(ChecksumMismatch(downloaded, algorithm));
    }
    return None;
  }

  // ---------------------------------------------------------------------
  // Cleanup
  // ---------------------------------------------------------------------

  /** The error `tryUnlink` lets through, and the files afterwards. */
  datatype Cleanup = Cleanup(error: Option<Error>, files: map<Path, seq<byte>>)

  /** `tryUnlink`: delete the file, tolerating only its absence. */
  function TryUnlinkSpec(faults: Faults, files: map<Path, seq<byte>>, path: Path): (c: Cleanup)
    ensures c.error.None? <==> (path !in files || path !in faults.unlinkRefused)
    ensures c.error.None? ==> path !in c.files && c.files == files - {path}
    ensures c.error.Some? ==> c.error.value == System(FsError(Unlink, path, EPERM)) && c.files == files
  {
    match UnlinkError(faults, files, path)
    case None => Cleanup(None, files - {path})
    case Some(e) =>
      if e.FsError? && e.code == ENOENT then
        assert files - {path} == files;
        Cleanup(None, files)
      else Cleanup(Some(System(e)), files)
  }

  method TryUnlink(fs: FileSystem, path: Path) returns (r: Outcome<Error>)
    modifies fs`files, fs`calls
    ensures var c := TryUnlinkSpec(fs.faults(old(fs.calls)), old(fs.files), path);
            r == OutcomeOf(c.error) && fs.files == c.files
    ensures fs.calls == old(fs.calls) + 1
  {
    var unlinked := fs.UnlinkSync(path);
    if unlinked.Fail? && !(unlinked.error.FsError? && unlinked.error.code == ENOENT) {
      return Fail(System(unlinked.error));
    }
    assert unlinked.Fail? ==> old(fs.files) - {path} == old(fs.files);
    return Pass;
  }

  // ---------------------------------------------------------------------
  // The whole call
  // ---------------------------------------------------------------------

  /** Everything a call consults but does not change: the file system's
      fault script, the network's script, and the hash library. */
  datatype Env = Env(faults: FaultScript, script: nat -> Response, crypto: Crypto)

  /** Everything a call changes: file contents, directories, the number of
      fallible file-system calls made, and the log of requests made. */
  datatype World = World(files: map<Path, seq<byte>>, dirs: set<Path>, calls: nat, requests: seq<string>)

  /** The outcome of a call and the world it leaves. */
  datatype Run = Run(outcome: Outcome<Error>, world: World)

  function State(fs: FileSystem, net: Transport): World
    reads fs, net
  {
    World(fs.files, fs.dirs, fs.calls, net.requests)
  }

  /** The guarded region of the attempt made as request number `n`. */
  function AttemptAt(env: Env, o: DownloadOptions, n: nat): Attempt
    requires !ChecksumMissing(o.shaChecksum)
  {
    AttemptSpec(env.crypto, env.script(n), o.url, o.shaAlgorithm, o.shaChecksum.value)
  }

  /** The world after the directory was made, the file opened and the
      guarded region ran (two file-system calls and one request). */
  function Attempted(env: Env, w: World, o: DownloadOptions): World
    requires !ChecksumMissing(o.shaChecksum)
  {
    World(w.files[o.destination := AttemptAt(env, o, |w.requests|).written],
          w.dirs + {Dirname(o.destination)},
          w.calls + 2,
          w.requests + [o.url])
  }

  /** The cleanup after a failed attempt, subject to the faults of the
      file-system call it makes. */
  function Cleaning(env: Env, w: World, o: DownloadOptions): Cleanup
    requires !ChecksumMissing(o.shaChecksum)
  {
    var tried := Attempted(env, w, o);
    TryUnlinkSpec(env.faults(tried.calls), tried.files, o.destination)
  }

  /** The world after the cleanup: where a retry starts from. */
  function CleanedUp(env: Env, w: World, o: DownloadOptions): World
    requires !ChecksumMissing(o.shaChecksum)
  {
    var tried := Attempted(env, w, o);
    tried.(files := Cleaning(env, w, o).files, calls := tried.calls + 1)
  }

  /** A call of `download`, as a function of the world before it. Every
      request it makes is for `o.url`, and there are at most `Budget(o) + 1`
      of them. */
  function DownloadSpec(env: Env, w: World, o: DownloadOptions): (r: Run)
    decreases Budget(o)
    ensures w.requests <= r.world.requests
    ensures |r.world.requests| <= |w.requests| + Budget(o) + 1
    ensures forall i :: |w.requests| <= i < |r.world.requests| ==> r.world.requests[i] == o.url
  {
    if ChecksumMissing(o.shaChecksum) then Run(Fail(ChecksumNotProvided(o.shaAlgorithm, o.url)), w)
    else
      var dir := Dirname(o.destination);
      var mkdir := MkdirpError(env.faults(w.calls), dir);
      var made := w.(dirs := w.dirs + {dir}, calls := w.calls + 1);
      var open := OpenError(env.faults(made.calls), made.dirs, o.destination);
      if mkdir.Some? then Run(Fail(System(mkdir.value)), w.(calls := w.calls + 1))
      else if open.Some? then Run(Fail(System(open.value)), made.(calls := made.calls + 1))
      else
        var a := AttemptAt(env, o, |w.requests|);
        if a.error.None? then Run(Pass, Attempted(env, w, o))
        else
          var c := Cleaning(env, w, o);
          if c.error.Some? then Run(Fail(c.error.value), CleanedUp(env, w, o))
          else if Retries(o) > 0 then DownloadSpec(env, CleanedUp(env, w, o), Retried(o))
          else Run(Fail(a.error.value), CleanedUp(env, w, o))
  }

  /** `download(options)`. The file handle it opens is closed on every path,
      so the set of open handles is as it was. */
  method Download(fs: FileSystem, net: Transport, crypto: Crypto, options: DownloadOptions)
    returns (outcome: Outcome<Error>)
    modifies fs, net
    decreases Budget(options)
    ensures Run(outcome, State(fs, net))
            == DownloadSpec(Env(fs.faults, net.script, crypto), old(State(fs, net)), options)
    ensures fs.open == old(fs.open)
  {
    ghost var env := Env(fs.faults, net.script, crypto);
    ghost var w := State(fs, net);
    var retries := Retries(options);
    if ChecksumMissing(options.shaChecksum) {
      return Fail(ChecksumNotProvided(options.shaAlgorithm, options.url));
    }

    // Not retried: directory creation and opening the file.
    var made := fs.Mkdirp(Dirname(options.destination));
    if made.Fail? {
      return Fail(System(made.error));
    }
    var openResult := fs.OpenSync(options.destination);
    if openResult.Failure? {
      return Fail(System(openResult.error));
    }
    var fileHandle := openResult.value;
    ghost var truncated := fs.files;

    // The guarded region; the handle is closed whatever it returns.
    var error := Transfer(fs, net, crypto, fileHandle, options.url, options.shaAlgorithm,
                          options.shaChecksum.value);
    fs.CloseSync(fileHandle);
    ghost var a := AttemptAt(env, options, |w.requests|);
    assert [] + a.written == a.written;
    assert fs.files == truncated[options.destination := a.written];
    assert State(fs, net) == Attempted(env, w, options);

    if error.None? {
      return Pass;
    }

    var cleaned := TryUnlink(fs, options.destination);
    assert State(fs, net) == CleanedUp(env, w, options);
    if cleaned.Fail? {
      return cleaned;
    }

    if retries > 0 {
      outcome := Download(fs, net, crypto, Retried(options));
      return;
    }
    return Fail(error.value);
  }
}
