/** What `download` promises, stated about `DownloadSpec`, which the
    `Download` method is proved to follow. */
module DownloadProperties {
  import opened Wrappers
  import opened Environment
  import opened Download

  /** The environment lets the destination be created, opened and deleted,
      at every file-system call. */
  ghost predicate Unobstructed(faults: FaultScript, destination: Path)
  {
    forall n: nat ::
      && Dirname(destination) !in faults(n).mkdirRefused
      && destination !in faults(n).openRefused
      && destination !in faults(n).unlinkRefused
  }

  /** A missing checksum is refused before anything else happens: no
      directory, no file, no request. */
  lemma MissingChecksumTouchesNothing(env: Env, w: World, o: DownloadOptions)
    requires ChecksumMissing(o.shaChecksum)
    ensures DownloadSpec(env, w, o) == Run(Fail(ChecksumNotProvided(o.shaAlgorithm, o.url)), w)
  {
  }

  /** Leaving `retries` out is the same as passing 0, and so is passing a
      negative number: one attempt, no retry. */
  lemma DefaultRetriesIsZero(env: Env, w: World, o: DownloadOptions)
    requires o.retries.None? || o.retries.value <= 0
    ensures DownloadSpec(env, w, o) == DownloadSpec(env, w, o.(retries := Some(0)))
    ensures |DownloadSpec(env, w, o).world.requests| <= |w.requests| + 1
  {
  }

  /** Failing to create the directory or open the file ends the call at
      once: no request, no cleanup, no retry. */
  lemma EnvironmentErrorsAreNotRetried(env: Env, w: World, o: DownloadOptions)
    requires !ChecksumMissing(o.shaChecksum)
    ensures Dirname(o.destination) in env.faults(w.calls).mkdirRefused ==>
              DownloadSpec(env, w, o)
              == Run(Fail(System(FsError(Mkdir, Dirname(o.destination), EACCES))), w.(calls := w.calls + 1))
    ensures && Dirname(o.destination) !in env.faults(w.calls).mkdirRefused
            && o.destination in env.faults(w.calls + 1).openRefused ==>
              DownloadSpec(env, w, o)
              == Run(Fail(System(FsError(Open, o.destination, EACCES))),
                     w.(dirs := w.dirs + {Dirname(o.destination)}, calls := w.calls + 2))
  {
  }

  /** A successful call leaves at the destination exactly the bytes of the
      last response, joined in arrival order, and their digest is the
      expected checksum. That response was a 200 whose stream ended
      normally. */
  lemma {:induction false} SuccessIsVerified(env: Env, w: World, o: DownloadOptions)
    decreases Budget(o)
    ensures var r := DownloadSpec(env, w, o);
            r.outcome.Pass? ==>
              && !ChecksumMissing(o.shaChecksum)
              && |w.requests| < |r.world.requests|
              && o.destination in r.world.files
              && var resp := env.script(|r.world.requests| - 1);
                 && resp.Reply? && resp.status == 200 && !resp.failed
                 && r.world.files[o.destination] == Concat(resp.chunks)
                 && env.crypto.hex(o.shaAlgorithm, r.world.files[o.destination]) == o.shaChecksum.value
  {
    if !ChecksumMissing(o.shaChecksum) && Retries(o) > 0 {
      SuccessIsVerified(env, CleanedUp(env, w, o), Retried(o));
    }
  }

  /** When the call fails with an attempt's error (status, stream,
      algorithm or checksum), every attempt the budget allows was made, the
      error is the last attempt's own, and no file is left at the
      destination. */
  lemma {:induction false} AttemptFailureExhaustsBudget(env: Env, w: World, o: DownloadOptions)
    decreases Budget(o)
    ensures var r := DownloadSpec(env, w, o);
            r.outcome.Fail? && AttemptFailure(r.outcome.error) ==>
              && !ChecksumMissing(o.shaChecksum)
              && |r.world.requests| == |w.requests| + Budget(o) + 1
              && o.destination !in r.world.files
              && Some(r.outcome.error) == AttemptAt(env, o, |r.world.requests| - 1).error
  {
    if !ChecksumMissing(o.shaChecksum) && Retries(o) > 0 {
      AttemptFailureExhaustsBudget(env, CleanedUp(env, w, o), Retried(o));
    }
  }

  /** With every attempt failing and nothing obstructing the destination,
      exactly `Budget(o) + 1` requests are made, all for the same URL; the
      error is the last attempt's own; no file is left. */
  lemma {:induction false} AllAttemptsFail(env: Env, w: World, o: DownloadOptions)
    requires !ChecksumMissing(o.shaChecksum) && Unobstructed(env.faults, o.destination)
    requires forall n :: |w.requests| <= n <= |w.requests| + Budget(o) ==> AttemptAt(env, o, n).error.Some?
    decreases Budget(o)
    ensures var r := DownloadSpec(env, w, o);
            && r.outcome == Fail(AttemptAt(env, o, |w.requests| + Budget(o)).error.value)
            && r.world.requests == w.requests + seq(Budget(o) + 1, _ => o.url)
            && o.destination !in r.world.files
  {
    var next := CleanedUp(env, w, o);
    assert AttemptAt(env, o, |w.requests|).error.Some?;
    if Retries(o) > 0 {
      var o' := Retried(o);
      forall n | |next.requests| <= n <= |next.requests| + Budget(o')
        ensures AttemptAt(env, o', n).error.Some?
      {
        assert AttemptAt(env, o', n) == AttemptAt(env, o, n);
      }
      AllAttemptsFail(env, next, o');
      assert next.requests + seq(Budget(o') + 1, _ => o.url) == w.requests + seq(Budget(o) + 1, _ => o.url);
    } else {
      assert [o.url] == seq(1, _ => o.url);
    }
  }

  /** When the first `k` attempts fail, the next one succeeds and `k` is
      within the budget, the call succeeds after exactly `k + 1` requests,
      with that attempt's bytes at the destination. */
  lemma {:induction false} RecoversWithinBudget(env: Env, w: World, o: DownloadOptions, k: nat)
    requires !ChecksumMissing(o.shaChecksum) && Unobstructed(env.faults, o.destination)
    requires k <= Budget(o)
    requires forall n :: |w.requests| <= n < |w.requests| + k ==> AttemptAt(env, o, n).error.Some?
    requires AttemptAt(env, o, |w.requests| + k).error.None?
    decreases k
    ensures var r := DownloadSpec(env, w, o);
            && r.outcome == Pass
            && |r.world.requests| == |w.requests| + k + 1
            && o.destination in r.world.files
            && r.world.files[o.destination] == AttemptAt(env, o, |w.requests| + k).written
  {
    if k > 0 {
      var next := CleanedUp(env, w, o);
      var o' := Retried(o);
      assert AttemptAt(env, o, |w.requests|).error.Some?;
      forall n | |next.requests| <= n < |next.requests| + (k - 1)
        ensures AttemptAt(env, o', n).error.Some?
      {
        assert AttemptAt(env, o', n) == AttemptAt(env, o, n);
      }
      assert AttemptAt(env, o', |next.requests| + (k - 1)) == AttemptAt(env, o, |w.requests| + k);
      RecoversWithinBudget(env, next, o', k - 1);
    }
  }

  /** A call changes no file but the destination, and creates no directory
      but the destination's parent. */
  lemma {:induction false} EffectsConfined(env: Env, w: World, o: DownloadOptions)
    decreases Budget(o)
    ensures var r := DownloadSpec(env, w, o);
            && (forall p :: p != o.destination ==> (p in r.world.files <==> p in w.files))
            && (forall p :: p != o.destination && p in w.files ==> r.world.files[p] == w.files[p])
            && w.dirs <= r.world.dirs <= w.dirs + {Dirname(o.destination)}
  {
    if !ChecksumMissing(o.shaChecksum) && Retries(o) > 0 {
      EffectsConfined(env, CleanedUp(env, w, o), Retried(o));
    }
  }

  /** A delete refused with a code other than ENOENT surfaces as the call's
      error in place of the attempt's, bypasses the retry, and leaves the
      file behind. */
  lemma {:induction false} UnlinkFailureKeepsFile(env: Env, w: World, o: DownloadOptions)
    decreases Budget(o)
    ensures var r := DownloadSpec(env, w, o);
            r.outcome.Fail? && r.outcome.error.System? && r.outcome.error.cause.FsError?
            && r.outcome.error.cause.op == Unlink ==>
              && r.outcome.error.cause == FsError(Unlink, o.destination, EPERM)
              && r.world.calls > 0
              && o.destination in env.faults(r.world.calls - 1).unlinkRefused
              && o.destination in r.world.files
              && |w.requests| < |r.world.requests|
  {
    if !ChecksumMissing(o.shaChecksum) && Retries(o) > 0 {
      UnlinkFailureKeepsFile(env, CleanedUp(env, w, o), Retried(o));
    }
  }

  /** Conversely, when an attempt fails and deleting its file is refused,
      the call ends there with that EPERM error: exactly one request, however
      many retries were left, and the file stays. */
  lemma UnlinkRefusalEndsCall(env: Env, w: World, o: DownloadOptions)
    requires !ChecksumMissing(o.shaChecksum)
    requires Dirname(o.destination) !in env.faults(w.calls).mkdirRefused
    requires o.destination !in env.faults(w.calls + 1).openRefused
    requires AttemptAt(env, o, |w.requests|).error.Some?
    requires o.destination in env.faults(w.calls + 2).unlinkRefused
    ensures DownloadSpec(env, w, o)
         == Run(Fail(System(FsError(Unlink, o.destination, EPERM))), CleanedUp(env, w, o))
    ensures CleanedUp(env, w, o).requests == w.requests + [o.url]
    ensures o.destination in CleanedUp(env, w, o).files
  {
  }

  /** Failing to create the directory or open the file keeps the files as
      they were when no attempt was made yet, and leaves no file at the
      destination when it happens on a retry. */
  lemma {:induction false} SetupFailureAfterRetryLeavesNoFile(env: Env, w: World, o: DownloadOptions)
    decreases Budget(o)
    ensures var r := DownloadSpec(env, w, o);
            r.outcome.Fail? && r.outcome.error.System? && r.outcome.error.cause.FsError?
            && r.outcome.error.cause.op != Unlink ==>
              && (|r.world.requests| == |w.requests| ==> r.world.files == w.files)
              && (|r.world.requests| > |w.requests| ==> o.destination !in r.world.files)
  {
    if !ChecksumMissing(o.shaChecksum) && Retries(o) > 0 {
      var next := CleanedUp(env, w, o);
      SetupFailureAfterRetryLeavesNoFile(env, next, Retried(o));
    }
  }

  /** A retry runs directory creation and opening again, and either can fail
      then. The failure ends the call at once, after the first attempt's
      file was deleted. */
  lemma RetrySetupFailure(env: Env, w: World, o: DownloadOptions)
    requires !ChecksumMissing(o.shaChecksum)
    requires Dirname(o.destination) !in env.faults(w.calls).mkdirRefused
    requires o.destination !in env.faults(w.calls + 1).openRefused
    requires AttemptAt(env, o, |w.requests|).error.Some?
    requires o.destination !in env.faults(w.calls + 2).unlinkRefused
    requires Retries(o) > 0
    ensures var next := CleanedUp(env, w, o);
            && next.requests == w.requests + [o.url]
            && o.destination !in next.files
            && (Dirname(o.destination) in env.faults(w.calls + 3).mkdirRefused ==>
                  DownloadSpec(env, w, o)
                  == Run(Fail(System(FsError(Mkdir, Dirname(o.destination), EACCES))),
                         next.(calls := w.calls + 4)))
            && (Dirname(o.destination) !in env.faults(w.calls + 3).mkdirRefused
                && o.destination in env.faults(w.calls + 4).openRefused ==>
                  DownloadSpec(env, w, o)
                  == Run(Fail(System(FsError(Open, o.destination, EACCES))),
                         next.(calls := w.calls + 5)))
  {
    var next := CleanedUp(env, w, o);
    assert next.dirs + {Dirname(o.destination)} == next.dirs;
  }

  /** The hash and the file see the same bytes, so how the stream is cut
      into chunks does not matter: only the bytes do. */
  lemma ChunkingIsIrrelevant(crypto: Crypto, status: int, c1: seq<seq<byte>>, c2: seq<seq<byte>>,
                             failed: bool, url: string, algorithm: string, checksum: string)
    requires Concat(c1) == Concat(c2)
    ensures AttemptSpec(crypto, Reply(status, c1, failed), url, algorithm, checksum)
         == AttemptSpec(crypto, Reply(status, c2, failed), url, algorithm, checksum)
  {
  }
}
