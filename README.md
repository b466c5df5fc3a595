# Checksum-verified, retrying downloader

This project models `download` and `tryUnlink` from `src/dev/build/lib/download.ts`, the Kibana build helper that fetches an artifact. The downloader takes a URL, a destination path, an expected checksum and a hash algorithm. It does the following, in order:

1. It refuses to start when no checksum is given.
2. It creates the destination's directory and opens the destination, truncating it.
3. It streams the response body. Every chunk goes into the hash and is appended to the file.
4. It closes the handle, whatever happened.
5. It accepts the download only if the hex digest equals the expected checksum.
6. A failed attempt deletes the file. With retries left, it calls itself again with one retry fewer. Otherwise it rethrows that attempt's own error.

Modules:

- `Wrappers` (`wrappers.dfy`): `Option`, `Result` and `Outcome`. An `Outcome` is `Pass` or `Fail(error)`, the shape of the returned `Promise<void>`.
- `Environment` (`environment.dfy`): the capabilities the downloader drives, each modelled only as far as the downloader observes it.
  - `FileSystem` is a class. It holds the file contents by path, the existing directories, the set of open handles and a count of the fallible calls made so far (mkdir, open, unlink). A fault script gives, for each such call, which directories cannot be created and which files cannot be opened or deleted. A retry's directory creation and open can therefore fail even though the first attempt's succeeded.
  - `Transport` is a scripted HTTP client. Request number `n` gets `script(n)`, and every requested URL is logged.
  - `Hash` is an incremental accumulator over a `Crypto` library value. That value holds the set of known algorithms and a digest function. The digest depends only on the algorithm and the bytes.
- `Download` (`download.dfy`): the downloader, written imperatively.
  - `Download` is the recursive method.
  - `Transfer` is the `try` block. Its loop feeds every chunk to the hash and to the file.
  - `TryUnlink` is `tryUnlink`.
  - Beside them are the reference functions `AttemptSpec`, `TryUnlinkSpec` and `DownloadSpec`. They describe the same behaviour as functions of the world before the call. Each method is proved to produce exactly what its function says, and `Download` is also proved to leave no handle open.
- `DownloadProperties` (`properties.dfy`): what the downloader promises, proved about `DownloadSpec`.

The model is parametric in the environment. Every property holds for every fault script, every network script and every digest function.

## Model

| member | source | states |
|---|---|---|
| `Environment.Dirname` | src/dev/build/lib/download.ts:49 | The directory handed to `mkdirp` is `.` for a name without `/`. Otherwise it is the prefix that ends just before the last `/`, or `/` when the only `/` is the leading one. |
| `Environment.LastSlash` | src/dev/build/lib/download.ts:49 | Finds the last `/` of a path, or reports that the path has none. |
| `Environment.FileSystem.Mkdirp` | src/dev/build/lib/download.ts:49 | Either fails with the error the fault script gives for this call and changes no directory, or adds the directory. Either way it counts as one call. |
| `Environment.FileSystem.OpenSync` | src/dev/build/lib/download.ts:50 | Opening with `'w'` either fails and changes no file, or empties the file and adds one fresh handle to the open set. It fails when the parent directory is missing or the fault script refuses this call. Either way it counts as one call. |
| `Environment.FileSystem.WriteSync` | src/dev/build/lib/download.ts:70 | Appends the chunk to the open file and changes no other file. |
| `Environment.FileSystem.CloseSync` | src/dev/build/lib/download.ts:86 | Removes exactly that handle from the open set. |
| `Environment.FileSystem.UnlinkSync` | src/dev/build/lib/download.ts:25 | Deleting a missing file raises ENOENT. A delete the fault script refuses for this call raises EPERM. Otherwise the file is removed and no other file changes. Either way it counts as one call. |
| `Environment.Transport.Request` | src/dev/build/lib/download.ts:56-60 | Each request gets the next scripted response and is logged with its URL. |
| `Environment.CreateHash` | src/dev/build/lib/download.ts:66 | Creating a hash succeeds exactly when the algorithm is known. The new accumulator is fresh and has consumed nothing. |
| `Environment.Hash.Update` | src/dev/build/lib/download.ts:69 | The accumulator has now consumed the previous bytes followed by the chunk. |
| `Environment.Hash.Digest` | src/dev/build/lib/download.ts:77 | The hex digest is the library's digest of exactly the consumed bytes. It can be taken only once. |
| `Download.ChecksumMissing` | src/dev/build/lib/download.ts:44 | The `!shaChecksum` test: a checksum that passes it is present and non-empty. |
| `Download.Retries` | src/dev/build/lib/download.ts:42 | `retries` defaults to 0 when it is left out, and is the caller's value otherwise. |
| `Download.Budget` | src/dev/build/lib/download.ts:101 | A retry is allowed only when `retries > 0`, and the budget is then that count. |
| `Download.Retried` | src/dev/build/lib/download.ts:103-106 | The retry reuses the URL, destination, checksum and algorithm, with `retries` one lower, so it uses up exactly one retry. |
| `Download.ConcatAppend` | src/dev/build/lib/download.ts:68-71 | Joining two consecutive stretches of a stream gives the bytes of the whole stream. |
| `Download.ConcatInOrder` | src/dev/build/lib/download.ts:68-71 | The joined stream is the bytes of the earlier chunks, then chunk `k`, then the later chunks, so every chunk lands in arrival order. |
| `Download.AttemptSpec` | src/dev/build/lib/download.ts:56-82 | An attempt succeeds if and only if it got a 200 reply whose stream ended normally, the algorithm is known, and the digest of the joined chunks equals the checksum. Every error it throws is retryable. The file holds the joined chunks once streaming started, and nothing otherwise. |
| `Download.Transfer` | src/dev/build/lib/download.ts:53-84 | The guarded region makes one request. It appends exactly what `AttemptSpec` says to the open file, changes no other file, and returns the error that attempt throws. |
| `Download.TryUnlinkSpec` | src/dev/build/lib/download.ts:23-31 | Cleanup succeeds if and only if the file is absent or may be deleted. On success the file is gone and nothing else changed. Otherwise the EPERM error surfaces and the files are unchanged. |
| `Download.TryUnlink` | src/dev/build/lib/download.ts:23-31 | The method returns the outcome `TryUnlinkSpec` gives for the faults of its one unlink call, and leaves the files it gives. |
| `Download.DownloadSpec` | src/dev/build/lib/download.ts:41-110 | A whole call keeps every earlier request. Every request it adds is for the same URL, and it adds at most `retries + 1` of them. |
| `Download.Download` | src/dev/build/lib/download.ts:41-110 | The method yields the outcome and world that `DownloadSpec` gives for the world before the call. The handle it opens is closed on every path. |
| `DownloadProperties.MissingChecksumTouchesNothing` | src/dev/build/lib/download.ts:44-46 | An absent or empty checksum fails with "checksum not provided" and leaves files, directories and requests as they were. |
| `DownloadProperties.DefaultRetriesIsZero` | src/dev/build/lib/download.ts:42 | Leaving `retries` out, or passing a number that is not positive, behaves as `retries = 0`: at most one request. |
| `DownloadProperties.EnvironmentErrorsAreNotRetried` | src/dev/build/lib/download.ts:48-50 | When the directory cannot be created, or the file cannot be opened, that error is returned at once. No request, delete or retry follows. |
| `DownloadProperties.RetrySetupFailure` | src/dev/build/lib/download.ts:48-50 | A retry creates the directory and opens the file again, and either can fail then. The call ends at once with that error, after one request, and the first attempt's file is already deleted. |
| `DownloadProperties.SuccessIsVerified` | src/dev/build/lib/download.ts:66-92 | After a success the destination holds exactly the chunks of the last response, joined in arrival order. That response was a 200 whose stream ended normally, and the hex digest of those bytes equals the checksum. |
| `DownloadProperties.AttemptFailureExhaustsBudget` | src/dev/build/lib/download.ts:94-109 | A call that fails with an attempt's error made exactly `retries + 1` requests and left no file at the destination. Its error is the last attempt's own error, unwrapped. |
| `DownloadProperties.AllAttemptsFail` | src/dev/build/lib/download.ts:101-109 | When every attempt fails and nothing blocks the destination: exactly `retries + 1` requests, all for the same URL; the error is the final attempt's; no file is left. |
| `DownloadProperties.RecoversWithinBudget` | src/dev/build/lib/download.ts:89-107 | When `k <= retries` attempts fail and the next one succeeds, the call succeeds after exactly `k + 1` requests. The destination then holds that attempt's bytes. |
| `DownloadProperties.EffectsConfined` | src/dev/build/lib/download.ts:49-50 | A call changes no file except the destination, and creates no directory except the destination's parent. |
| `DownloadProperties.UnlinkFailureKeepsFile` | src/dev/build/lib/download.ts:23-31 | A call that ends with an unlink error ends with EPERM, raised by a delete the faults refused after some request. The file stays on disk. |
| `DownloadProperties.UnlinkRefusalEndsCall` | src/dev/build/lib/download.ts:94-101 | Conversely, when an attempt fails and its delete is refused, the call ends with that EPERM error: exactly one request whatever `retries` is, and the file stays. |
| `DownloadProperties.SetupFailureAfterRetryLeavesNoFile` | src/dev/build/lib/download.ts:48-50 | A directory or open failure leaves the files as they were when no request had been made yet. When it happens on a retry, no file remains at the destination. `RetrySetupFailure` shows that the retry case occurs. |
| `DownloadProperties.ChunkingIsIrrelevant` | src/dev/build/lib/download.ts:68-71 | Two replies that carry the same bytes in different chunks give the same attempt result. |

Behaviour of the code worth noting:

- A failing call can still leave a file at the destination:
  - On a missing checksum, or when the first `mkdirp` or `openSync` fails, the code never touches the destination. A file that already existed there stays.
  - When `unlinkSync` fails with a code other than ENOENT, that error propagates and the partly written file stays.
  - `SetupFailureAfterRetryLeavesNoFile` and `UnlinkFailureKeepsFile` state exactly what holds.
- The checksum-mismatch error carries the computed digest and the algorithm name, but not the expected checksum.
- An unknown algorithm makes `createHash` throw inside the `try` block, after the request. It therefore counts as a retryable attempt failure.

## Left out

- Logging through `ToolingLog` and `chalk`: it has no effect on behaviour.
- HTTP itself, redirects, TLS and the axios adapter: a response is a scripted `Refused` or `Reply(status, chunks, failed)`. `Refused` covers every way axios rejects the request, including its own rejection of non-2xx statuses. `Reply` with a status other than 200 covers the explicit status check.
- The event-emitter and promise plumbing: the stream is an in-order sequence of chunks that ends with one end-or-error signal, and asynchrony is not modelled.
- Real SHA hashing: the digest function is a parameter, so the model holds for any deterministic digest of the algorithm and the bytes.
- `writeSync` and `closeSync` failures: both are assumed to succeed. Data events after a stream error are not modelled.
- `mkdirp` and Node's `path.dirname`: `src/dev/build/lib/fs.ts` is not part of this model. `mkdirp` succeeds or fails as the faults say, and records only the directory it was given, not its ancestors. Trailing slashes and other normalisation done by Node's `dirname` are not modelled.
- A `retries` value that is not an integer: it is modelled as an integer. A negative value behaves like 0, as it does in the code.
- A checksum passed as `null` or another falsy non-string: it is modelled as the absent case.
- Concurrent calls for the same destination: the code does not guard against them.
