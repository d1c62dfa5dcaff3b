/**
 * `runSync`: one synchronous spawn, whose error, status and signal are folded into a
 * single error. A SIGTERM signal counts as a clean stop here, unlike in `run`.
 */
module SyncRun {
  import opened Wrappers
  import opened Strings
  import opened Completion

  /** The fields of the synchronous spawn's return value that `runSync` reads. */
  datatype SpawnResult = SpawnResult(
    error: Option<Error>, status: Option<int>, signal: Option<string>,
    stdout: Option<seq<byte>>, stderr: Option<seq<byte>>)

  datatype SyncResult = SyncResult(err: Option<Error>, stdout: Option<seq<byte>>, stderr: Option<seq<byte>>)

  /** `err.message += ': ' + msg` on an existing error, `new Error(msg)` otherwise. */
  function AppendMessage(err: Option<Error>, msg: string): (e: Error)
    ensures err.None? ==> e.message == msg
    ensures err.Some? ==> e.message == err.value.message + ": " + msg
  {
    if err.Some? then Error(err.value.message + ": " + msg) else Error(msg)
  }

  /** A (non-empty) signal other than SIGTERM first, then a non-zero status, each appended to
      the spawn error when there is one; otherwise the spawn error as it is. */
  function SyncError(error: Option<Error>, status: Option<int>, signal: Option<string>): Option<Error> {
    if signal.Some? && signal.value != "" && signal.value != "SIGTERM" then Some(AppendMessage(error, KilledMessage(signal.value)))
    else if status.Some? && status.value != 0 then Some(AppendMessage(error, ExitedMessage(status.value)))
    else error
  }

  function RunSync(r: SpawnResult): (s: SyncResult)
    ensures s.stdout == r.stdout && s.stderr == r.stderr
  {
    SyncResult(SyncError(r.error, r.status, r.signal), r.stdout, r.stderr)
  }

  /** A signal that makes `runSync` report a failure: set, non-empty and not SIGTERM. */
  predicate Killing(signal: Option<string>) {
    signal.Some? && signal.value != "" && signal.value != "SIGTERM"
  }

  /** `runSync` reports no error exactly when the spawn succeeded, no killing signal arrived
      and the status was absent or zero. */
  lemma SyncErrorIffFailure(r: SpawnResult)
    ensures RunSync(r).err.None? <==> r.error.None? && !Killing(r.signal) && (r.status.None? || r.status == Some(0))
  {
  }

  /** A spawn error is never dropped: its message stays at the head of the reported one,
      followed by exactly the killing signal's phrase, else the non-zero status's phrase,
      else nothing. */
  lemma SpawnErrorKept(r: SpawnResult)
    requires r.error.Some?
    ensures RunSync(r).err.Some?
    ensures IsPrefix(r.error.value.message, RunSync(r).err.value.message)
    ensures Killing(r.signal) ==>
      RunSync(r).err == Some(Error(r.error.value.message + ": " + KilledMessage(r.signal.value)))
    ensures !Killing(r.signal) && r.status.Some? && r.status.value != 0 ==>
      RunSync(r).err == Some(Error(r.error.value.message + ": " + ExitedMessage(r.status.value)))
    ensures !Killing(r.signal) && (r.status.None? || r.status == Some(0)) ==> RunSync(r).err == r.error
  {
    var m := r.error.value.message;
    if Killing(r.signal) {
      assert (m + ": " + KilledMessage(r.signal.value))[..|m|] == m;
    } else if r.status.Some? && r.status.value != 0 {
      assert (m + ": " + ExitedMessage(r.status.value))[..|m|] == m;
    }
  }

  /** Without a spawn error, a killing signal or a non-zero status becomes a new error whose
      message is exactly its phrase. */
  lemma FreshErrorMessage(r: SpawnResult)
    requires r.error.None?
    ensures Killing(r.signal) ==> RunSync(r).err == Some(Error(KilledMessage(r.signal.value)))
    ensures !Killing(r.signal) && r.status.Some? && r.status.value != 0 ==>
      RunSync(r).err == Some(Error(ExitedMessage(r.status.value)))
  {
  }

  /** Without a spawn error and a SIGTERM, `runSync` reports the same error as the 'exit'
      handler of `run` does. */
  lemma AgreesWithAsync(status: Option<int>, signal: Option<string>)
    requires signal != Some("SIGTERM")
    ensures SyncError(None, status, signal) == ExitError(status, signal)
  {
  }

  /** A SIGTERM with no exit status is an error for `run` and a clean stop for `runSync`. */
  lemma SigtermDiffers(status: Option<int>)
    requires status.None? || status == Some(0)
    ensures ExitError(status, Some("SIGTERM")) == Some(Error(KilledMessage("SIGTERM")))
    ensures SyncError(None, status, Some("SIGTERM")) == None
  {
  }
}
