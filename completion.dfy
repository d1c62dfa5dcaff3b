/**
 * The asynchronous run: the stdout and stderr handlers fill the two log
 * buffers, and three completion signals (stdout closed, stderr closed,
 * process exited) are joined by `_handleExit`, which settles the result only
 * once all three have arrived. The pure functions here are the specification
 * (one `Step` per delivered event); the class `Execution` holds the same
 * state in fields and has one method per event, each proved against `Step`.
 */
module Completion {
  import opened Wrappers
  import opened Decimal
  import opened Strings
  import opened LogBuffer
  import opened Progress
  import opened SpawnArgs

  /** A JavaScript `Error`, reduced to its message. */
  datatype Error = Error(message: string)

  /** Captured output: text, raw bytes, or `undefined`. */
  datatype Output = Text(text: string) | Bytes(bytes: seq<byte>) | Absent

  /** What `run` resolves with and emits as 'end'. */
  datatype RunResult = RunResult(err: Option<Error>, stdout: Output, stderr: Option<string>)

  /** A stdout chunk: its bytes and the text the runtime decodes from them (`chunk.toString()`). */
  datatype Chunk = Chunk(raw: seq<byte>, text: string)

  /** The options the handlers consult: output destination, quiet flag and line cap. */
  datatype Config = Config(output: string, quiet: bool, maxLines: int)

  /** `this.options.stdoutLines ?? 100`. */
  function ConfigOf(o: Options): (c: Config)
    ensures c.maxLines == (if o.stdoutLines.Some? then o.stdoutLines.value else 100)
  {
    Config(o.output, o.quiet, o.stdoutLines.GetOr(100))
  }

  const ExitedPhrase := "gifski exited with code"

  function ExitedMessage(code: int): string {
    ExitedPhrase + " " + IntToString(code)
  }

  function KilledMessage(signal: string): string {
    "gifski was killed with signal " + signal
  }

  /** The error the 'exit' handler hands to `_handleExit`: a (non-empty) signal first,
      then a non-zero code, otherwise none. */
  function ExitError(code: Option<int>, signal: Option<string>): Option<Error> {
    if signal.Some? && signal.value != "" then Some(Error(KilledMessage(signal.value)))
    else if code.Some? && code.value != 0 then Some(Error(ExitedMessage(code.value)))
    else None
  }

  // Materialisation of the buffers and augmentation of the error.

  function Texts(cs: seq<Chunk>): (r: seq<string>)
    ensures |r| == |cs| && forall i :: 0 <= i < |cs| ==> r[i] == cs[i].text
  {
    seq(|cs|, i requires 0 <= i < |cs| => cs[i].text)
  }

  function Raws(cs: seq<Chunk>): (r: seq<seq<byte>>)
    ensures |r| == |cs| && forall i :: 0 <= i < |cs| ==> r[i] == cs[i].raw
  {
    seq(|cs|, i requires 0 <= i < |cs| => cs[i].raw)
  }

  /** The stdout value: absent without chunks, the newline-joined text when writing to a
      file, the concatenated bytes when the output is `-`. */
  function MaterializeStdout(output: string, data: seq<Chunk>): Output {
    if |data| == 0 then Absent
    else if output != "-" then Text(JoinLines(Texts(data)))
    else Bytes(Concat(Raws(data)))
  }

  /** The stderr value: absent without chunks, the newline-joined text otherwise. */
  function MaterializeStderr(data: seq<string>): Option<string> {
    if |data| == 0 then None else Some(JoinLines(data))
  }

  /** The stored error gets the stderr text appended when its message mentions a non-zero
      exit code and the stderr text is non-empty (an empty string is falsy). */
  predicate Augments(err: Option<Error>, stderr: Option<string>) {
    err.Some? && HasSubstring(err.value.message, ExitedPhrase) && stderr.Some? && stderr.value != ""
  }

  /** The body of `_handleExit` once all three signals are in. */
  function Finalize(cfg: Config, stdoutData: seq<Chunk>, stderrData: seq<string>, exitError: Option<Error>): RunResult {
    var stdout := MaterializeStdout(cfg.output, stdoutData);
    var stderr := MaterializeStderr(stderrData);
    var err := if Augments(exitError, stderr) then Some(Error(exitError.value.message + ": " + stderr.value)) else exitError;
    RunResult(err, stdout, stderr)
  }

  // The join as a state machine over delivered events.

  datatype Event =
    | StdoutData(chunk: Chunk)
    | StdoutClose
    | StderrData(text: string)
    | StderrClose
    | Exit(code: Option<int>, signal: Option<string>)

  /** The closure state of `run`, plus the results handed out so far ('end' and `resolve`). */
  datatype JoinState = JoinState(
    stdoutClosed: bool, stderrClosed: bool, processExited: bool, exitError: Option<Error>,
    stdoutData: seq<Chunk>, stderrData: seq<string>, ended: seq<RunResult>)

  const Initial := JoinState(false, false, false, None, [], [], [])

  /** The stdout 'data' handler's storage rule: capped and skipped when quiet for a file, kept
      without cap for `-`. */
  function StoreStdout(cfg: Config, data: seq<Chunk>, c: Chunk): seq<Chunk> {
    if cfg.output != "-" then (if !cfg.quiet then Push(data, cfg.maxLines, c) else data)
    else data + [c]
  }

  /** `_handleExit(err)`: keep a given error, and settle once all three signals are in. */
  function Settle(cfg: Config, s: JoinState, err: Option<Error>): JoinState {
    var s1 := if err.Some? then s.(exitError := err) else s;
    if s1.stdoutClosed && s1.stderrClosed && s1.processExited then
      var r := Finalize(cfg, s1.stdoutData, s1.stderrData, s1.exitError);
      s1.(exitError := r.err, ended := s1.ended + [r])
    else s1
  }

  /** One delivered event. */
  function Step(cfg: Config, s: JoinState, ev: Event): JoinState {
    match ev
    case StdoutData(c) => s.(stdoutData := StoreStdout(cfg, s.stdoutData, c))
    case StdoutClose => Settle(cfg, s.(stdoutClosed := true), None)
    case StderrData(t) => s.(stderrData := Push(s.stderrData, cfg.maxLines, t))
    case StderrClose => Settle(cfg, s.(stderrClosed := true), None)
    case Exit(code, signal) => Settle(cfg, s.(processExited := true), ExitError(code, signal))
  }

  /** The state after delivering `evs` in order. */
  function Run(cfg: Config, evs: seq<Event>): JoinState
    decreases |evs|
  {
    if evs == [] then Initial else Step(cfg, Run(cfg, evs[..|evs| - 1]), evs[|evs| - 1])
  }

  /** The progress events the stdout handler emits while `evs` are delivered. */
  function ProgressOf(evs: seq<Event>): seq<Progress>
    decreases |evs|
  {
    if evs == [] then []
    else
      ProgressOf(evs[..|evs| - 1]) + ReportOf(evs[|evs| - 1])
  }

  /** The report one event yields: the stdout handler's event for a marker chunk, else none. */
  function ReportOf(ev: Event): seq<Progress> {
    if ev.StdoutData? && MatchProgressAsWritten(ev.chunk.text).Some? then [MatchProgressAsWritten(ev.chunk.text).value] else []
  }

  lemma ProgressOfSnoc(p: seq<Event>, ev: Event)
    ensures ProgressOf(p + [ev]) == ProgressOf(p) + ReportOf(ev)
  {
    assert (p + [ev])[..|p|] == p;
  }

  /** Progress depends on the stdout chunks alone: reports for two stretches of events are
      the reports for each, one after the other. */
  lemma {:induction false} ProgressOfAppend(a: seq<Event>, b: seq<Event>)
    ensures ProgressOf(a + b) == ProgressOf(a) + ProgressOf(b)
    decreases |b|
  {
    if b == [] {
      assert a + b == a;
    } else {
      var b', ev := b[..|b| - 1], b[|b| - 1];
      assert b == b' + [ev];
      assert a + b == (a + b') + [ev];
      ProgressOfSnoc(a + b', ev);
      ProgressOfSnoc(b', ev);
      ProgressOfAppend(a, b');
    }
  }

  /** As the source is written, every progress report of a run says 0 seconds left. */
  lemma {:induction false} ProgressNeverHasSeconds(evs: seq<Event>)
    ensures forall i :: 0 <= i < |ProgressOf(evs)| ==> ProgressOf(evs)[i].secondsLeft == 0
    decreases |evs|
  {
    if evs != [] {
      ProgressNeverHasSeconds(evs[..|evs| - 1]);
    }
  }

  /** A run that receives the chunk `Frame 3 / 10 ## 7s` reports frame 3 of 10 and 0 seconds,
      where the corrected parser would read 7. */
  lemma ExampleRunReportsNoSeconds()
    ensures ProgressOf([StdoutData(Chunk([], ExampleChunk))]) == [Progress(3, 10, 0)]
    ensures ParseProgress(ExampleChunk) == Some(Progress(3, 10, 7))
  {
    var ev := StdoutData(Chunk([], ExampleChunk));
    SecondsExample();
    ProgressOfSnoc([], ev);
    assert [] + [ev] == [ev];
    assert ReportOf(ev) == [Progress(3, 10, 0)];
  }

  // What a sequence of events delivers, independently of the machine.

  datatype Channel = StdoutChannel | StderrChannel | ExitChannel

  function ChannelOf(ev: Event): Channel {
    match ev
    case StdoutData(_) => StdoutChannel
    case StdoutClose => StdoutChannel
    case StderrData(_) => StderrChannel
    case StderrClose => StderrChannel
    case Exit(_, _) => ExitChannel
  }

  predicate IsCompletion(ev: Event) {
    ev.StdoutClose? || ev.StderrClose? || ev.Exit?
  }

  /** The completion signal of channel `ch` is among `evs`. */
  predicate Seen(evs: seq<Event>, ch: Channel)
    decreases |evs|
  {
    evs != [] && (Seen(evs[..|evs| - 1], ch) || (IsCompletion(evs[|evs| - 1]) && ChannelOf(evs[|evs| - 1]) == ch))
  }

  predicate Complete(evs: seq<Event>) {
    Seen(evs, StdoutChannel) && Seen(evs, StderrChannel) && Seen(evs, ExitChannel)
  }

  /** The streams deliver their data before they close, and each signal arrives at most once. */
  predicate WellFormed(evs: seq<Event>)
    decreases |evs|
  {
    evs == [] || (WellFormed(evs[..|evs| - 1]) && !Seen(evs[..|evs| - 1], ChannelOf(evs[|evs| - 1])))
  }

  function StdoutChunks(evs: seq<Event>): seq<Chunk>
    decreases |evs|
  {
    if evs == [] then []
    else StdoutChunks(evs[..|evs| - 1]) + (if evs[|evs| - 1].StdoutData? then [evs[|evs| - 1].chunk] else [])
  }

  function StderrChunks(evs: seq<Event>): seq<string>
    decreases |evs|
  {
    if evs == [] then []
    else StderrChunks(evs[..|evs| - 1]) + (if evs[|evs| - 1].StderrData? then [evs[|evs| - 1].text] else [])
  }

  /** The error the exit event of `evs` carries, if there is one. */
  function ExitErrorOf(evs: seq<Event>): Option<Error>
    decreases |evs|
  {
    if evs == [] then None
    else if evs[|evs| - 1].Exit? then ExitError(evs[|evs| - 1].code, evs[|evs| - 1].signal)
    else ExitErrorOf(evs[..|evs| - 1])
  }

  /** What the stdout buffer holds after receiving `chunks`: nothing for a file in quiet mode,
      the newest `maxLines` for a file otherwise, everything for `-`. */
  function StoredStdout(cfg: Config, chunks: seq<Chunk>): seq<Chunk> {
    if cfg.output != "-" then (if cfg.quiet then [] else Window(chunks, cfg.maxLines)) else chunks
  }

  /** The result a complete run must settle with. */
  function Outcome(cfg: Config, evs: seq<Event>): RunResult {
    Finalize(cfg, StoredStdout(cfg, StdoutChunks(evs)), Window(StderrChunks(evs), cfg.maxLines), ExitErrorOf(evs))
  }

  /** The machine's state after `evs` is determined by what `evs` delivered. */
  ghost predicate Tracks(cfg: Config, evs: seq<Event>, s: JoinState) {
    s.stdoutClosed == Seen(evs, StdoutChannel) &&
    s.stderrClosed == Seen(evs, StderrChannel) &&
    s.processExited == Seen(evs, ExitChannel) &&
    s.stdoutData == StoredStdout(cfg, StdoutChunks(evs)) &&
    s.stderrData == Window(StderrChunks(evs), cfg.maxLines) &&
    (if Complete(evs) then s.ended == [Outcome(cfg, evs)] else s.ended == [] && s.exitError == ExitErrorOf(evs))
  }

  lemma {:induction false} NoExitNoError(evs: seq<Event>)
    requires !Seen(evs, ExitChannel)
    ensures ExitErrorOf(evs) == None
    decreases |evs|
  {
    if evs != [] {
      NoExitNoError(evs[..|evs| - 1]);
    }
  }

  lemma StoreStdoutWindow(cfg: Config, chunks: seq<Chunk>, c: Chunk)
    ensures StoreStdout(cfg, StoredStdout(cfg, chunks), c) == StoredStdout(cfg, chunks + [c])
  {
    PushWindow(chunks, cfg.maxLines, c);
  }

  /** How every projection reads one event further. */
  lemma Unfold(p: seq<Event>, ev: Event)
    ensures (p + [ev])[..|p|] == p && (p + [ev])[|p|] == ev
    ensures forall ch :: Seen(p + [ev], ch) == (Seen(p, ch) || (IsCompletion(ev) && ChannelOf(ev) == ch))
    ensures StdoutChunks(p + [ev]) == StdoutChunks(p) + (if ev.StdoutData? then [ev.chunk] else [])
    ensures StderrChunks(p + [ev]) == StderrChunks(p) + (if ev.StderrData? then [ev.text] else [])
    ensures ExitErrorOf(p + [ev]) == (if ev.Exit? then ExitError(ev.code, ev.signal) else ExitErrorOf(p))
    ensures WellFormed(p + [ev]) == (WellFormed(p) && !Seen(p, ChannelOf(ev)))
  {
    assert (p + [ev])[..|p|] == p;
  }

  /** A stream's data event keeps the invariant. */
  lemma DataTracks(cfg: Config, p: seq<Event>, ev: Event, s: JoinState)
    requires ev.StdoutData? || ev.StderrData?
    requires !Complete(p) && !Seen(p, ChannelOf(ev)) && Tracks(cfg, p, s)
    ensures Tracks(cfg, p + [ev], Step(cfg, s, ev))
  {
    Unfold(p, ev);
    if ev.StdoutData? {
      StoreStdoutWindow(cfg, StdoutChunks(p), ev.chunk);
    } else {
      PushWindow(StderrChunks(p), cfg.maxLines, ev.text);
    }
  }

  /** A stream's close keeps the invariant, settling when it is the last of the three signals. */
  lemma CloseTracks(cfg: Config, p: seq<Event>, ev: Event, s: JoinState)
    requires ev.StdoutClose? || ev.StderrClose?
    requires !Complete(p) && !Seen(p, ChannelOf(ev)) && Tracks(cfg, p, s)
    ensures Tracks(cfg, p + [ev], Step(cfg, s, ev))
  {
    Unfold(p, ev);
    var s1 := if ev.StdoutClose? then s.(stdoutClosed := true) else s.(stderrClosed := true);
    assert Step(cfg, s, ev) == Settle(cfg, s1, None);
    if Complete(p + [ev]) {
      ExitSettles(cfg, p + [ev], s1);
    }
  }

  /** The exit keeps the invariant: it stores its error, and settles when it is the last signal. */
  lemma ExitTracks(cfg: Config, p: seq<Event>, ev: Event, s: JoinState)
    requires ev.Exit?
    requires !Complete(p) && !Seen(p, ExitChannel) && Tracks(cfg, p, s)
    ensures Tracks(cfg, p + [ev], Step(cfg, s, ev))
  {
    Unfold(p, ev);
    NoExitNoError(p);
    var s1 := s.(processExited := true, exitError := ExitError(ev.code, ev.signal));
    assert Settle(cfg, s.(processExited := true), ExitError(ev.code, ev.signal)) == Settle(cfg, s1, None);
    if Complete(p + [ev]) {
      ExitSettles(cfg, p + [ev], s1);
    } else {
      assert Step(cfg, s, ev) == s1;
    }
  }

  /** The last signal settles the run with the result its events determine. */
  lemma ExitSettles(cfg: Config, q: seq<Event>, s1: JoinState)
    requires Complete(q) && s1.ended == [] && s1.exitError == ExitErrorOf(q)
    requires s1.stdoutClosed && s1.stderrClosed && s1.processExited
    requires s1.stdoutData == StoredStdout(cfg, StdoutChunks(q))
    requires s1.stderrData == Window(StderrChunks(q), cfg.maxLines)
    ensures Settle(cfg, s1, None).ended == [Outcome(cfg, q)]
  {
  }

  /** The invariant of the join: every well-formed prefix leaves the machine in the state
      its events determine, with no result before the last signal and one after it. */
  lemma {:induction false} RunTracks(cfg: Config, evs: seq<Event>)
    requires WellFormed(evs)
    ensures Tracks(cfg, evs, Run(cfg, evs))
    decreases |evs|
  {
    if evs != [] {
      var p := evs[..|evs| - 1];
      var ev := evs[|evs| - 1];
      assert evs == p + [ev];
      RunTracks(cfg, p);
      assert !Complete(p);
      if ev.Exit? {
        ExitTracks(cfg, p, ev, Run(cfg, p));
      } else if IsCompletion(ev) {
        CloseTracks(cfg, p, ev, Run(cfg, p));
      } else {
        DataTracks(cfg, p, ev, Run(cfg, p));
      }
    }
  }

  /** Whatever the order, a well-formed run that received all three signals has settled
      exactly once, with the result its events determine. */
  lemma ExactlyOnce(cfg: Config, evs: seq<Event>)
    requires WellFormed(evs) && Complete(evs)
    ensures Run(cfg, evs).ended == [Outcome(cfg, evs)]
  {
    RunTracks(cfg, evs);
  }

  lemma {:induction false} SeenInPrefix(evs: seq<Event>, k: nat, ch: Channel)
    requires k <= |evs| && Seen(evs[..k], ch)
    ensures Seen(evs, ch)
    decreases |evs|
  {
    if k < |evs| {
      var p := evs[..|evs| - 1];
      assert p[..k] == evs[..k];
      SeenInPrefix(p, k, ch);
    } else {
      assert evs[..k] == evs;
    }
  }

  lemma {:induction false} WellFormedPrefix(evs: seq<Event>, k: nat)
    requires WellFormed(evs) && k <= |evs|
    ensures WellFormed(evs[..k])
    decreases |evs|
  {
    if k < |evs| {
      var p := evs[..|evs| - 1];
      assert p[..k] == evs[..k];
      WellFormedPrefix(p, k);
    } else {
      assert evs[..k] == evs;
    }
  }

  /** Before the last of the three signals nothing has been settled. */
  lemma NothingBeforeLastSignal(cfg: Config, evs: seq<Event>, k: nat)
    requires WellFormed(evs) && Complete(evs) && k < |evs|
    ensures Run(cfg, evs[..k]).ended == []
    ensures !Complete(evs[..k])
  {
    var p := evs[..|evs| - 1];
    assert p[..k] == evs[..k];
    if Complete(evs[..k]) {
      SeenInPrefix(p, k, StdoutChannel);
      SeenInPrefix(p, k, StderrChannel);
      SeenInPrefix(p, k, ExitChannel);
      assert false;
    }
    WellFormedPrefix(evs, k);
    RunTracks(cfg, evs[..k]);
  }

  /** A well-formed delivery has settled once if it is complete and not at all otherwise. */
  lemma Settlement(cfg: Config, evs: seq<Event>)
    ensures WellFormed(evs) && Complete(evs) ==> Run(cfg, evs).ended == [Outcome(cfg, evs)]
    ensures WellFormed(evs) && !Complete(evs) ==> Run(cfg, evs).ended == []
  {
    if WellFormed(evs) {
      RunTracks(cfg, evs);
    }
  }

  /** Two complete runs that delivered the same chunks on each stream and the same exit
      settle with the same result, whatever the interleaving of their signals. */
  lemma OrderIndependent(cfg: Config, e1: seq<Event>, e2: seq<Event>)
    requires WellFormed(e1) && Complete(e1) && WellFormed(e2) && Complete(e2)
    requires StdoutChunks(e1) == StdoutChunks(e2) && StderrChunks(e1) == StderrChunks(e2)
    requires ExitErrorOf(e1) == ExitErrorOf(e2)
    ensures Run(cfg, e1).ended == Run(cfg, e2).ended
  {
    ExactlyOnce(cfg, e1);
    ExactlyOnce(cfg, e2);
  }

  // The six orders of the three signals.

  /** Only data events: no signal has arrived yet. */
  predicate DataOnly(d: seq<Event>) {
    forall i :: 0 <= i < |d| ==> !IsCompletion(d[i])
  }

  lemma {:induction false} DataOnlyFacts(d: seq<Event>)
    requires DataOnly(d)
    ensures WellFormed(d) && forall ch :: !Seen(d, ch)
    decreases |d|
  {
    if d != [] {
      var p := d[..|d| - 1];
      assert forall i :: 0 <= i < |p| ==> p[i] == d[i];
      DataOnlyFacts(p);
      Unfold(p, d[|d| - 1]);
      assert d == p + [d[|d| - 1]];
    }
  }

  /** The three signals, in any of their six orders. */
  predicate SignalsInSomeOrder(p: seq<Event>, code: Option<int>, signal: Option<string>) {
    |p| == 3 && StdoutClose in p && StderrClose in p && Exit(code, signal) in p
  }

  /** Where each signal sits: three distinct positions. */
  lemma SignalPositions(p: seq<Event>, code: Option<int>, signal: Option<string>) returns (i: nat, j: nat, k: nat)
    requires SignalsInSomeOrder(p, code, signal)
    ensures i < 3 && j < 3 && k < 3 && i != j && j != k && i != k
    ensures p[i] == StdoutClose && p[j] == StderrClose && p[k] == Exit(code, signal)
  {
    i :| 0 <= i < |p| && p[i] == StdoutClose;
    j :| 0 <= j < |p| && p[j] == StderrClose;
    k :| 0 <= k < |p| && p[k] == Exit(code, signal);
  }

  lemma {:induction false} SeenAt(evs: seq<Event>, n: nat)
    requires n < |evs| && IsCompletion(evs[n])
    ensures Seen(evs, ChannelOf(evs[n]))
    decreases |evs|
  {
    if n < |evs| - 1 {
      var p := evs[..|evs| - 1];
      assert p[n] == evs[n];
      SeenAt(p, n);
    }
  }

  /** Appending the three signals to data-only events completes a well-formed run and
      changes nothing the run delivered. */
  lemma SignalsComplete(d: seq<Event>, p: seq<Event>, code: Option<int>, signal: Option<string>)
    requires DataOnly(d) && SignalsInSomeOrder(p, code, signal)
    ensures WellFormed(d + p) && Complete(d + p)
    ensures StdoutChunks(d + p) == StdoutChunks(d) && StderrChunks(d + p) == StderrChunks(d)
    ensures ExitErrorOf(d + p) == ExitError(code, signal)
  {
    var i, j, k := SignalPositions(p, code, signal);
    SignalsSeen(d, p, i, j, k);
    ChannelsDistinct(p, i, j, k);
    SignalsAppend(d, p);
    ExitCarried(d, p, code, signal, k);
  }

  lemma ChannelsDistinct(p: seq<Event>, i: nat, j: nat, k: nat)
    requires |p| == 3 && i < 3 && j < 3 && k < 3 && i != j && j != k && i != k
    requires p[i].StdoutClose? && p[j].StderrClose? && p[k].Exit?
    ensures IsCompletion(p[0]) && IsCompletion(p[1]) && IsCompletion(p[2])
    ensures ChannelOf(p[0]) != ChannelOf(p[1]) && ChannelOf(p[0]) != ChannelOf(p[2]) && ChannelOf(p[1]) != ChannelOf(p[2])
  {
  }

  /** How a signal extends a run: it delivers no data. */
  lemma UnfoldSignal(q: seq<Event>, ev: Event)
    requires IsCompletion(ev)
    ensures Seen(q + [ev], ChannelOf(ev))
    ensures forall ch :: ch != ChannelOf(ev) ==> Seen(q + [ev], ch) == Seen(q, ch)
    ensures WellFormed(q + [ev]) == (WellFormed(q) && !Seen(q, ChannelOf(ev)))
    ensures StdoutChunks(q + [ev]) == StdoutChunks(q) && StderrChunks(q + [ev]) == StderrChunks(q)
  {
    assert (q + [ev])[..|q|] == q;
  }

  lemma SignalsAppend(d: seq<Event>, p: seq<Event>)
    requires DataOnly(d) && |p| == 3
    requires IsCompletion(p[0]) && IsCompletion(p[1]) && IsCompletion(p[2])
    requires ChannelOf(p[0]) != ChannelOf(p[1]) && ChannelOf(p[0]) != ChannelOf(p[2]) && ChannelOf(p[1]) != ChannelOf(p[2])
    ensures WellFormed(d + p)
    ensures StdoutChunks(d + p) == StdoutChunks(d) && StderrChunks(d + p) == StderrChunks(d)
  {
    DataOnlyFacts(d);
    var d1 := d + [p[0]];
    var d2 := d1 + [p[1]];
    UnfoldSignal(d, p[0]);
    assert WellFormed(d1) && !Seen(d1, ChannelOf(p[1])) && !Seen(d1, ChannelOf(p[2]));
    UnfoldSignal(d1, p[1]);
    assert WellFormed(d2) && !Seen(d2, ChannelOf(p[2]));
    UnfoldSignal(d2, p[2]);
    assert d + p == d2 + [p[2]];
  }

  lemma UnfoldExit(q: seq<Event>, ev: Event)
    ensures ExitErrorOf(q + [ev]) == (if ev.Exit? then ExitError(ev.code, ev.signal) else ExitErrorOf(q))
  {
    assert (q + [ev])[..|q|] == q;
  }

  lemma ExitCarried(d: seq<Event>, p: seq<Event>, code: Option<int>, signal: Option<string>, k: nat)
    requires |p| == 3 && k < 3 && p[k] == Exit(code, signal)
    requires forall n :: 0 <= n < 3 && n != k ==> !p[n].Exit?
    ensures ExitErrorOf(d + p) == ExitError(code, signal)
  {
    var d1 := d + [p[0]];
    var d2 := d1 + [p[1]];
    UnfoldExit(d, p[0]);
    UnfoldExit(d1, p[1]);
    UnfoldExit(d2, p[2]);
    assert d + p == d2 + [p[2]];
  }

  lemma SignalsSeen(d: seq<Event>, p: seq<Event>, i: nat, j: nat, k: nat)
    requires |p| == 3 && i < 3 && j < 3 && k < 3
    requires p[i].StdoutClose? && p[j].StderrClose? && p[k].Exit?
    ensures Complete(d + p)
  {
    var e := d + p;
    assert e[|d| + i] == p[i] && e[|d| + j] == p[j] && e[|d| + k] == p[k];
    SeenAt(e, |d| + i);
    SeenAt(e, |d| + j);
    SeenAt(e, |d| + k);
  }

  /** In each of the six orders of the three signals, the last one settles with the data
      received, the exit's error and the buffers' contents. */
  lemma AnyOrderOfSignals(cfg: Config, d: seq<Event>, p: seq<Event>, code: Option<int>, signal: Option<string>)
    requires DataOnly(d) && SignalsInSomeOrder(p, code, signal)
    ensures Run(cfg, d + p).ended == [Finalize(cfg, StoredStdout(cfg, StdoutChunks(d)), Window(StderrChunks(d), cfg.maxLines), ExitError(code, signal))]
  {
    SignalsComplete(d, p, code, signal);
    ExactlyOnce(cfg, d + p);
  }

  /** In each of the six orders, nothing is settled before the last signal. */
  lemma NoResultBeforeThirdSignal(cfg: Config, d: seq<Event>, p: seq<Event>, code: Option<int>, signal: Option<string>)
    requires DataOnly(d) && SignalsInSomeOrder(p, code, signal)
    ensures Run(cfg, d + p[..2]).ended == []
  {
    SignalsComplete(d, p, code, signal);
    var e := d + p;
    assert e[..|d| + 2] == d + p[..2];
    NothingBeforeLastSignal(cfg, e, |d| + 2);
  }

  // The error of the settled result.

  /** Signal names are upper-case letters and digits, as `SIGTERM` or `SIGKILL`. */
  predicate IsSignalName(s: string) {
    s != [] && forall i :: 0 <= i < |s| ==> ('A' <= s[i] <= 'Z' || '0' <= s[i] <= '9')
  }

  /** A non-zero exit code without a signal yields "gifski exited with code N", followed by
      ": " and the stderr text when there is some. */
  lemma ExitCodeAugmented(cfg: Config, out: seq<Chunk>, errs: seq<string>, code: int, signal: Option<string>)
    requires code != 0 && (signal.None? || signal == Some(""))
    ensures var r := Finalize(cfg, out, errs, ExitError(Some(code), signal));
      r.err == Some(Error(if errs != [] && JoinLines(errs) != "" then ExitedMessage(code) + ": " + JoinLines(errs) else ExitedMessage(code)))
  {
    assert ExitedMessage(code)[..|ExitedPhrase|] == ExitedPhrase;
    PrefixFound(ExitedPhrase, ExitedMessage(code));
  }

  /** A signal's message never mentions an exit code, so it is never augmented. */
  lemma SignalNotAugmented(cfg: Config, out: seq<Chunk>, errs: seq<string>, code: Option<int>, signal: string)
    requires IsSignalName(signal)
    ensures Finalize(cfg, out, errs, ExitError(code, Some(signal))).err == Some(Error(KilledMessage(signal)))
  {
    var m := KilledMessage(signal);
    if HasSubstring(m, ExitedPhrase) {
      assert ExitedPhrase[8] == 'x';
      SubstringChars(m, ExitedPhrase, 'x');
      assert false;
    }
  }

  /** The settled error is absent exactly when the process exited normally, and otherwise
      begins with the exit's own message. */
  lemma ErrorIffAbnormalExit(cfg: Config, out: seq<Chunk>, errs: seq<string>, code: Option<int>, signal: Option<string>)
    ensures var r := Finalize(cfg, out, errs, ExitError(code, signal));
      (r.err.None? <==> (signal.None? || signal == Some("")) && (code.None? || code == Some(0))) &&
      (r.err.Some? ==> IsPrefix(ExitError(code, signal).value.message, r.err.value.message))
  {
    var e := ExitError(code, signal);
    if e.Some? {
      var m := e.value.message;
      assert (m + ": " + JoinLines(errs))[..|m|] == m;
    }
  }

  /** `_handleExit()` without an error never clears or shortens a stored one. */
  lemma SettleKeepsError(cfg: Config, s: JoinState)
    requires s.exitError.Some?
    ensures var t := Settle(cfg, s, None);
      t.exitError.Some? && IsPrefix(s.exitError.value.message, t.exitError.value.message)
  {
    var m := s.exitError.value.message;
    assert (m + ": " + JoinLines(s.stderrData))[..|m|] == m;
  }

  // What the settled result captures.

  /** Writing to a file in quiet mode keeps no stdout at all. */
  lemma QuietFileKeepsNoStdout(cfg: Config, evs: seq<Event>)
    requires WellFormed(evs) && cfg.output != "-" && cfg.quiet
    ensures Run(cfg, evs).stdoutData == []
    ensures Complete(evs) ==> |Run(cfg, evs).ended| == 1 && Run(cfg, evs).ended[0].stdout == Absent
  {
    RunTracks(cfg, evs);
  }

  /** Writing to a file, the settled stdout is the newest `maxLines` chunks' text, joined
      with newlines. */
  lemma FileStdoutIsNewest(cfg: Config, evs: seq<Event>)
    requires WellFormed(evs) && Complete(evs) && cfg.output != "-" && !cfg.quiet && StdoutChunks(evs) != []
    ensures |Run(cfg, evs).ended| == 1
    ensures Run(cfg, evs).ended[0].stdout == Text(JoinLines(Texts(Window(StdoutChunks(evs), cfg.maxLines))))
  {
    ExactlyOnce(cfg, evs);
    var w := Window(StdoutChunks(evs), cfg.maxLines);
    assert |w| > 0 by {
      if cfg.maxLines > 0 { assert |w| == Min(|StdoutChunks(evs)|, cfg.maxLines); }
    }
  }

  /** Writing to `-`, every chunk is stored, uncapped and whether quiet or not, and the
      settled stdout is their bytes in arrival order. */
  lemma DashKeepsAllStdout(cfg: Config, evs: seq<Event>)
    requires WellFormed(evs) && cfg.output == "-"
    ensures Run(cfg, evs).stdoutData == StdoutChunks(evs)
    ensures Complete(evs) && StdoutChunks(evs) != [] ==>
      |Run(cfg, evs).ended| == 1 && Run(cfg, evs).ended[0].stdout == Bytes(Concat(Raws(StdoutChunks(evs))))
  {
    RunTracks(cfg, evs);
  }

  /** The text stdout splits back into the stored chunks when none of them holds a newline;
      the byte stdout is as long as the stored chunks together. */
  lemma MaterializedStdoutReadsBack(output: string, data: seq<Chunk>)
    ensures MaterializeStdout(output, data).Absent? <==> data == []
    ensures output != "-" && data != [] && (forall i :: 0 <= i < |data| ==> '\n' !in data[i].text) ==>
      SplitLines(MaterializeStdout(output, data).text) == Texts(data)
    ensures output == "-" && data != [] ==> |MaterializeStdout(output, data).bytes| == TotalLength(Raws(data))
  {
    if output != "-" && data != [] && (forall i :: 0 <= i < |data| ==> '\n' !in data[i].text) {
      SplitJoinRoundTrip(Texts(data));
    }
    ConcatLength(Raws(data));
  }

  /** The stderr value is absent exactly when no chunk is stored and otherwise splits back into
      the stored chunks when none of them holds a newline. */
  lemma MaterializedStderrReadsBack(data: seq<string>)
    ensures MaterializeStderr(data).None? <==> data == []
    ensures data != [] && (forall i :: 0 <= i < |data| ==> '\n' !in data[i]) ==>
      SplitLines(MaterializeStderr(data).value) == data
  {
    if data != [] && (forall i :: 0 <= i < |data| ==> '\n' !in data[i]) {
      SplitJoinRoundTrip(data);
    }
  }

  /** With a positive cap, stderr always, and stdout when writing to a file, hold at most
      `maxLines` chunks: the newest ones. */
  lemma BuffersBounded(cfg: Config, evs: seq<Event>)
    requires WellFormed(evs) && cfg.maxLines > 0
    ensures var s := Run(cfg, evs);
      |s.stderrData| == Min(|StderrChunks(evs)|, cfg.maxLines) &&
      (cfg.output != "-" ==> |s.stdoutData| <= cfg.maxLines)
  {
    RunTracks(cfg, evs);
  }

  // The handlers, on state held in fields.

  /** The closure of one `run` call: its two log buffers, the three flags, the stored
      error, and the results emitted as 'end' so far. */
  class Execution {
    const cfg: Config
    const stdoutLog: LogBuffer<Chunk>
    const stderrLog: LogBuffer<string>
    var stdoutClosed: bool
    var stderrClosed: bool
    var processExited: bool
    var exitError: Option<Error>
    var ended: seq<RunResult>

    /** Two distinct buffers sharing the run's cap, each within it where it is capped. */
    ghost predicate Valid()
      reads this, stdoutLog, stderrLog
    {
      stdoutLog as object != stderrLog as object &&
      stdoutLog.maxLines == cfg.maxLines && stderrLog.maxLines == cfg.maxLines &&
      WithinCap(stderrLog.data, cfg.maxLines) &&
      (cfg.output != "-" ==> WithinCap(stdoutLog.data, cfg.maxLines))
    }

    ghost function State(): JoinState
      reads this, stdoutLog, stderrLog
    {
      JoinState(stdoutClosed, stderrClosed, processExited, exitError, stdoutLog.data, stderrLog.data, ended)
    }

    constructor (options: Options)
      ensures Valid() && cfg == ConfigOf(options) && State() == Initial
      ensures fresh(stdoutLog) && fresh(stderrLog)
    {
      var c := ConfigOf(options);
      cfg := c;
      stdoutLog := new LogBuffer(c.maxLines);
      stderrLog := new LogBuffer(c.maxLines);
      stdoutClosed := false;
      stderrClosed := false;
      processExited := false;
      exitError := None;
      ended := [];
    }

    /** The stdout 'data' handler: stores the chunk and reports the progress it carries. */
    method OnStdoutData(chunk: Chunk) returns (progress: Option<Progress>)
      requires Valid()
      modifies stdoutLog
      ensures Valid() && State() == Step(cfg, old(State()), StdoutData(chunk))
      ensures progress == MatchProgressAsWritten(chunk.text)
    {
      if cfg.output != "-" {
        if !cfg.quiet {
          stdoutLog.Append(chunk);
        }
      } else {
        stdoutLog.AppendUncapped(chunk);
      }
      progress := MatchProgressAsWritten(chunk.text);
    }

    /** The stderr 'data' handler. */
    method OnStderrData(text: string)
      requires Valid()
      modifies stderrLog
      ensures Valid() && State() == Step(cfg, old(State()), StderrData(text))
    {
      stderrLog.Append(text);
    }

    /** `_handleExit(err)`. */
    method HandleExit(err: Option<Error>)
      requires Valid()
      modifies this
      ensures Valid() && State() == Settle(cfg, old(State()), err)
    {
      if err.Some? {
        exitError := err;
      }
      if processExited && stdoutClosed && stderrClosed {
        var stdout := MaterializeStdout(cfg.output, stdoutLog.data);
        var stderr := MaterializeStderr(stderrLog.data);
        if exitError.Some? && HasSubstring(exitError.value.message, ExitedPhrase) && stderr.Some? && stderr.value != "" {
          exitError := Some(Error(exitError.value.message + ": " + stderr.value));
        }
        ended := ended + [RunResult(exitError, stdout, stderr)];
      }
    }

    /** The stdout 'close' handler. */
    method OnStdoutClose()
      requires Valid()
      modifies this
      ensures Valid() && State() == Step(cfg, old(State()), StdoutClose)
    {
      stdoutClosed := true;
      HandleExit(None);
    }

    /** The stderr 'close' handler. */
    method OnStderrClose()
      requires Valid()
      modifies this
      ensures Valid() && State() == Step(cfg, old(State()), StderrClose)
    {
      stderrClosed := true;
      HandleExit(None);
    }

    /** The process 'exit' handler. */
    method OnExit(code: Option<int>, signal: Option<string>)
      requires Valid()
      modifies this
      ensures Valid() && State() == Step(cfg, old(State()), Exit(code, signal))
    {
      processExited := true;
      if signal.Some? && signal.value != "" {
        HandleExit(Some(Error(KilledMessage(signal.value))));
      } else if code.Some? && code.value != 0 {
        HandleExit(Some(Error(ExitedMessage(code.value))));
      } else {
        HandleExit(None);
      }
    }

    /** Dispatch one event to its handler. */
    method OnEvent(ev: Event) returns (progress: Option<Progress>)
      requires Valid()
      modifies this, stdoutLog, stderrLog
      ensures Valid() && State() == Step(cfg, old(State()), ev)
      ensures progress == (if ev.StdoutData? then MatchProgressAsWritten(ev.chunk.text) else None)
    {
      progress := None;
      match ev
      case StdoutData(c) => progress := OnStdoutData(c);
      case StdoutClose => OnStdoutClose();
      case StderrData(t) => OnStderrData(t);
      case StderrClose => OnStderrClose();
      case Exit(code, signal) => OnExit(code, signal);
    }

    /** The process 'error' handler: reports the buffers as they stand, settling nothing. */
    method OnError() returns (stdout: Output, stderr: Option<string>)
      requires Valid()
      ensures stdout == MaterializeStdout(cfg.output, stdoutLog.data)
      ensures stderr == MaterializeStderr(stderrLog.data)
      ensures stdout.Absent? <==> stdoutLog.data == []
      ensures stderr.None? <==> stderrLog.data == []
    {
      stdout := MaterializeStdout(cfg.output, stdoutLog.data);
      stderr := MaterializeStderr(stderrLog.data);
    }
  }

  /** One `run` call receiving `evs` in order: the results it emits as 'end' and the progress
      events it emits. A well-formed complete delivery resolves exactly once, with the result
      its events determine; an incomplete one not at all. */
  method Deliver(options: Options, evs: seq<Event>) returns (results: seq<RunResult>, progress: seq<Progress>)
    ensures results == Run(ConfigOf(options), evs).ended
    ensures progress == ProgressOf(evs)
    ensures WellFormed(evs) && Complete(evs) ==> results == [Outcome(ConfigOf(options), evs)]
    ensures WellFormed(evs) && !Complete(evs) ==> results == []
  {
    var e := new Execution(options);
    progress := [];
    var i := 0;
    while i < |evs|
      invariant 0 <= i <= |evs|
      invariant e.Valid() && e.cfg == ConfigOf(options)
      invariant fresh(e.stdoutLog) && fresh(e.stderrLog)
      invariant e.State() == Run(e.cfg, evs[..i])
      invariant progress == ProgressOf(evs[..i])
    {
      assert evs[..i + 1][..i] == evs[..i];
      var p := e.OnEvent(evs[i]);
      if p.Some? {
        progress := progress + [p.value];
      }
      i := i + 1;
    }
    assert evs[..i] == evs;
    results := e.ended;
    Settlement(e.cfg, evs);
  }
}
