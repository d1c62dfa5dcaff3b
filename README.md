# gifski-command, modelled in Dafny

`GifskiCommand` wraps the gifski encoder. From an options record it builds the
encoder's command line. It starts the process, keeps the newest stdout and stderr
chunks in two bounded buffers, and reports progress parsed from stdout. It settles
one result once stdout has closed, stderr has closed and the process has exited.
That result carries the error, the captured stdout and the captured stderr.
`runSync` runs the encoder synchronously and folds its error, status and signal
into one error.

The model has these modules:

- `SpawnArgs` builds the command line (`_buildSpawnArgs`).
  - The method `BuildSpawnArgs` appends to a list, as the source does.
  - It is proved equal to the function `CommandLine`.
  - A reference decoder (`DecodeFlags`) reads the optional part back. The round trip shows each flag appears only when its option is truthy, in the fixed order, with its own number.
- `LogBuffer` is the capped push/shift buffer.
  - It is a class with a `seq` field.
  - It is specified by `Window`, the newest `maxLines` chunks.
- `Completion` is the join of the three completion signals in `run`.
  - The function `Step` says what each handler does to the closure state, and `Run` folds it over a sequence of delivered events.
  - The class `Execution` holds that state in fields, with one method per handler, each proved against `Step`.
  - The lemmas about `Run` state what the join promises:
    - exactly one result after the three signals, in any order;
    - none before the last signal;
    - buffers within their cap;
    - the capture mode of stdout;
    - the error's form and its augmentation with the stderr text.
- `Progress` is the progress-line matcher.
  - The regular expression `^Frame (\d+) \/ (\d+).*(\d*)s*$` becomes an explicit matcher.
  - The matcher is proved sound and complete against the shape of a marker.
- `SyncRun` is `runSync`'s error classification.
- `Decimal` and `Strings` model the runtime operations the core uses:
  - `toString`/`parseInt` on integers;
  - `trim`;
  - a phrase search;
  - `join('\n')` with its inverse `split('\n')`;
  - `Buffer.concat`.

Choices of representation:

- Numeric options are `Option<int>`. JavaScript's `if (x)` is `Truthy`: present and non-zero. A missing boolean option is `false`.
- A stdout chunk is `Chunk(raw, text)`. `text` stands for the runtime's `chunk.toString()` of the bytes `raw`.
- The child process, the streams and the event loop are not modelled. Their callbacks become a sequence of `Event`s delivered in order. `WellFormed` says that each stream's data precedes its close and that each signal arrives once.

Behaviours of the code worth stating outright:

- The `stdoutLines` option (documented at src/index.ts:108 as "use 0 for unlimited storage") is not checked. Zero disables eviction (`maxLines !== 0`). A negative cap also never evicts, because a length never equals it. `Window` and `Push` model this.
- A marker whose total is 0, or whose current frame exceeds its total, still produces a progress event (`Progress.EventOfMarker`). The percent field would then be a floating-point division by zero.
- The seconds-left estimate is never read, so every progress event says 0 seconds left; see "Findings".

## Model

| member | source | states |
|---|---|---|
| SpawnArgs.PushValued | src/index.ts:181-186 | appends the flag and its value's decimal numeral exactly when the option is truthy, and appends nothing otherwise |
| SpawnArgs.PushSwitch | src/index.ts:187-192 | appends the flag exactly when the switch is on |
| SpawnArgs.PushOptionalFlags | src/index.ts:179-222 | the nine conditional pushes, in source order, produce the optional part `OptionalFlags(o)` |
| SpawnArgs.BuildSpawnArgs | src/index.ts:178-230 | the returned list is the optional part followed by `-o`, the output and the frames |
| SpawnArgs.CommandLineReadsBack | src/index.ts:178-230 | after the optional part come exactly `-o`, the output and the frames in their given order, and the optional part decodes to exactly the truthy options' values |
| SpawnArgs.DecodeRoundTrip | src/index.ts:181-222 | decoding the optional part gives back each truthy option's value, and absence for 0, missing or `false` options, so each flag occurs only when set, at most once, in the fixed order `--fps --fast --extra --quality --width --height --no-sort --quiet --repeat` |
| SpawnArgs.TakeLastValueRoundTrip | src/index.ts:181-186 | a valued flag's segment reads back as the option's truthy value and leaves the tokens before it untouched |
| SpawnArgs.TakeLastSwitchRoundTrip | src/index.ts:187-192 | a switch segment reads back as the switch and leaves the tokens before it untouched |
| SpawnArgs.NotInValued | src/index.ts:181-186 | a valued segment holds only its own flag and a numeral, never another flag |
| Decimal.IntRoundTrip | src/index.ts:184 | an integer's `toString()` is a numeral that `parseInt` reads back as the same integer |
| Decimal.NatRoundTrip | src/index.ts:184 | a natural number's numeral is non-empty, all digits, has no leading zero unless it is `0`, and reads back as the number |
| Decimal.IntStringNotFlag | src/index.ts:184 | a numeral never starts with `--`, so it cannot be mistaken for a flag |
| Completion.ConfigOf | src/index.ts:243 | the cap is `stdoutLines` when given and 100 otherwise |
| LogBuffer.Window | src/index.ts:283-286 | with a positive cap the buffer holds `min(n, maxLines)` chunks, and with a cap of 0 or less all of them; either way they are the newest chunks, in arrival order |
| LogBuffer.PushWindow | src/index.ts:283-286 | one shift-and-push on the window of `xs` gives the window of `xs + [x]` |
| LogBuffer.PushAllWindow | src/index.ts:283-286 | pushing any sequence of chunks into an empty buffer leaves exactly their window, within the cap |
| LogBuffer.EvictedAreOldest | src/index.ts:283-286 | with distinct chunks and a positive cap, chunk `i` is still held exactly when it is among the last `maxLines` received |
| LogBuffer.LogBuffer.constructor | src/index.ts:245-248 | a new buffer is empty and has the run's cap |
| LogBuffer.LogBuffer.Append | src/index.ts:283-286 | the new contents are the capped push of the chunk, and from a buffer within its cap, the window of all chunks received |
| LogBuffer.LogBuffer.AppendUncapped | src/index.ts:289 | the chunk is appended and nothing is evicted |
| Completion.Execution.constructor | src/index.ts:243-252 | both buffers are empty with the run's cap, no signal has arrived and no error is stored |
| Completion.Execution.OnStdoutData | src/index.ts:280-306 | the state moves as `Step` says for a stdout chunk (capped store for a file unless quiet, uncapped store for `-`), and the progress returned is the source's event for the chunk: present exactly for a marker, with 0 seconds left |
| Completion.Execution.OnEvent | src/index.ts:280-347 | each event goes to its handler: the state moves as `Step` says, and only a stdout chunk can report progress |
| Completion.Execution.OnStderrData | src/index.ts:314-319 | the state moves as `Step` says for a stderr chunk: a capped push |
| Completion.Execution.HandleExit | src/index.ts:255-271 | a given error is stored, and once all three signals are in, exactly one result is added, built from the buffers and the possibly augmented error |
| Completion.Execution.OnStdoutClose | src/index.ts:309-312 | stdout is marked closed and the join is attempted without an error |
| Completion.Execution.OnStderrClose | src/index.ts:321-324 | stderr is marked closed and the join is attempted without an error |
| Completion.Execution.OnExit | src/index.ts:335-347 | the process is marked exited and the join is attempted with the signal's error first, else the non-zero code's, else none |
| Completion.Execution.OnError | src/index.ts:326-333 | reports the buffers materialised as they stand, absent exactly when empty, and changes nothing |
| Completion.Deliver | src/index.ts:254-348 | delivering events to the handlers yields the results `Run` determines and the progress reports `ProgressOf` determines (the source's events, one per marker chunk); a well-formed complete delivery settles exactly once with the result its events determine, and an incomplete one not at all |
| Completion.ProgressOfAppend | src/index.ts:292-305 | progress depends only on the stdout chunks: the reports of two stretches of events are the reports of each, in order |
| Completion.ProgressNeverHasSeconds | src/index.ts:292-305 | as written, every progress report of a run says 0 seconds left |
| Completion.ExampleRunReportsNoSeconds | src/index.ts:292-305 | a run receiving `Frame 3 / 10 ## 7s` reports frame 3 of 10 with 0 seconds left, where the corrected parser reads 7 |
| Completion.RunTracks | src/index.ts:255-347 | after every well-formed prefix, the flags record which signals arrived, the buffers hold the windows of the chunks received, and a result exists exactly when all three signals did |
| Completion.ExactlyOnce | src/index.ts:260-271 | a well-formed run with all three signals has settled exactly once, with the result fixed by its chunks and its exit |
| Completion.Settlement | src/index.ts:260-271 | a well-formed run has one result if it is complete and none otherwise |
| Completion.NothingBeforeLastSignal | src/index.ts:260 | no prefix that misses the last signal has settled, nor has it received all three signals |
| Completion.OrderIndependent | src/index.ts:255-271 | two complete runs with the same chunks and the same exit settle with the same result, however their signals interleave |
| Completion.AnyOrderOfSignals | src/index.ts:255-347 | after data, each of the six orders of stdout close, stderr close and exit settles exactly once, with the same result |
| Completion.NoResultBeforeThirdSignal | src/index.ts:260 | in each of the six orders, nothing is settled after the first two signals |
| Completion.ExitCodeAugmented | src/index.ts:265-268 | a non-zero code without a signal gives "gifski exited with code N", followed by ": " and the stderr text exactly when that text is non-empty |
| Completion.SignalNotAugmented | src/index.ts:265-268 | a signal's error is "gifski was killed with signal S" whatever the code, and is never augmented |
| Completion.ErrorIffAbnormalExit | src/index.ts:338-344 | the settled error is absent exactly when neither a signal nor a non-zero code was reported, and otherwise starts with the exit's message |
| Completion.SettleKeepsError | src/index.ts:256-258 | a later join without an error never clears or shortens a stored one |
| Completion.QuietFileKeepsNoStdout | src/index.ts:281-287 | writing to a file in quiet mode, no stdout chunk is ever stored and the settled stdout is absent |
| Completion.DashKeepsAllStdout | src/index.ts:288-290 | writing to `-`, every chunk is stored without cap, and the settled stdout is their bytes concatenated in order |
| Completion.FileStdoutIsNewest | src/index.ts:261-262 | writing to a file, the settled stdout is the newest `maxLines` chunks' text joined with newlines |
| Completion.BuffersBounded | src/index.ts:283-286 | with a positive cap, stderr holds `min(n, maxLines)` chunks, and stdout, when writing to a file, at most `maxLines` |
| Completion.StoreStdoutWindow | src/index.ts:280-290 | storing a chunk keeps the stdout buffer equal to its specification for the chunks received so far |
| Completion.MaterializedStdoutReadsBack | src/index.ts:261-263 | stdout is absent exactly when no chunk is stored; its text splits back into the chunks when none holds a newline; its bytes are as long as the chunks together |
| Completion.MaterializedStderrReadsBack | src/index.ts:264 | stderr is absent exactly when no chunk is stored, and otherwise splits back into the chunks when none holds a newline |
| Strings.SplitJoinRoundTrip | src/index.ts:262 | splitting the newline-joined lines gives back the lines when none holds a newline |
| Strings.ConcatLength | src/index.ts:262 | the concatenated buffer's length is the sum of the chunks' lengths |
| Strings.Trim | src/index.ts:292 | `trim` yields a piece of the input that neither starts nor ends with white space |
| Strings.TrimCutsOnlySpace | src/index.ts:292 | everything `trim` removes is white space or a line terminator |
| Strings.SubstringChars | src/index.ts:265 | every character of a phrase the search finds occurs in the searched text |
| Progress.MatchSound | src/index.ts:292 | what the matcher accepts is `Frame `, digits, ` / `, digits, then text on one line, with the second group read to its end |
| Progress.MatchComplete | src/index.ts:292 | every text of that shape is accepted, with the given groups when the rest does not start with a digit |
| Progress.MatchProgressAsWritten | src/index.ts:292-296 | the source's progress event exists exactly when the trimmed chunk is a marker, and its seconds left is always 0 |
| Progress.ParseProgress | src/index.ts:292-296 | an event exists exactly when the trimmed chunk is a marker, and agrees with the source's event in everything but the seconds left |
| Progress.EventOfMarker | src/index.ts:292-295 | a marker yields the source's event, which reports its current frame, and its total when the rest does not start with a digit |
| Progress.EventReadsGroups | src/index.ts:292-295 | conversely, every event of the source reports the decimal values of the two digit groups of the marker it was read from |
| Progress.SearchDown | src/index.ts:292 | the greedy engine's third group, tried from the longest `.*` down, is digits whenever one is found |
| Progress.SearchUp | src/index.ts:292 | the lazy engine's third group, tried from the shortest `.*?` up, is digits whenever one is found |
| Progress.LazyFindsSeconds | src/index.ts:292 | with the shortest `.*`, the third group is the digits before the final `s` |
| Progress.SecondsParsed | src/index.ts:296 | the corrected parser reads the seconds left of a marker ending in `<digits>s` |
| Progress.SecondsIgnoredAsWritten | src/index.ts:296 | the source's parser reports 0 seconds left for the same marker |
| Progress.SecondsExample | src/index.ts:292-296 | on `Frame 3 / 10 ## 7s`, the source reports 0 seconds left and the corrected parser 7 |
| SyncRun.AppendMessage | src/index.ts:371-380 | a message is appended after ": " to an existing error, or becomes a new error |
| SyncRun.RunSync | src/index.ts:384-388 | stdout and stderr are passed through unchanged |
| SyncRun.SyncErrorIffFailure | src/index.ts:369-382 | no error is reported exactly when the spawn did not fail, no signal other than SIGTERM arrived and the status is absent or zero |
| SyncRun.SpawnErrorKept | src/index.ts:369-382 | a spawn error is never dropped: its message is followed by exactly ": gifski was killed with signal S" for a killing signal, else ": gifski exited with code N" for a non-zero status, else nothing |
| SyncRun.FreshErrorMessage | src/index.ts:369-382 | without a spawn error, a killing signal gives exactly "gifski was killed with signal S", else a non-zero status exactly "gifski exited with code N" |
| SyncRun.AgreesWithAsync | src/index.ts:370-381 | without a spawn error or a SIGTERM, the error is the one the asynchronous exit handler produces |
| SyncRun.SigtermDiffers | src/index.ts:370 | a SIGTERM without a status is an error for `run` and a clean stop for `runSync` |

## Left out

- Locating the executable (src/index.ts:13-41) is environment and filesystem I/O. The path is not modelled.
- `spawn` and `spawnSync` with their options, `emit`, and the construction of the Promise are foreign calls and event-loop plumbing. Callbacks become a sequence of delivered `Event`s, and `resolve`/'end' become the `ended` results.
- The sequence of events is a parameter. The model does not decide which orders the runtime produces. The join theorems assume `WellFormed`: each stream's data before its close, each signal once. `Step` still defines repeated signals, but no theorem is stated about them.
- The `percent` field is a floating-point division and is left out.
- JavaScript numbers are taken to be integers. Fractional options, NaN, very large values and `toString`'s exponent notation are left out.
- The UTF-8 decoding of a stdout or stderr chunk (`chunk.toString()`) is given as the chunk's text, not computed.
- The regular-expression engine is replaced by an explicit matcher of the same pattern. `matchAll(...)[0]` is the single match an anchored pattern can have. No separate model is needed for it.
- `gifskiProcess = null` (src/index.ts:346) only drops a reference, and is not modelled.
- Errors are values. The in-place `err.message +=` on a spawn error object that the caller may also hold is modelled as a new message.
- In `runSync` the captured stdout and stderr are passed through as optional bytes. With `stdio: 'inherit'` they are absent.
- Completion.SignalNotAugmented: assumes the signal name is upper-case letters and digits, as every POSIX signal name is. A name containing the phrase "gifski exited with code" would be augmented.
- `src/cli.ts`, the tests and `lib/index.d.ts` are not part of this model. The source does not enforce the quality range `1..100` from the type declarations, so it is not imposed either.

## Findings

| source | as written | input that shows it | evidently intended | confidence | as-written member | corrected member |
|---|---|---|---|---|---|---|
| src/index.ts:292-296 | in `^Frame (\d+) \/ (\d+).*(\d*)s*$` the greedy `.*` takes the whole rest, so the third group is always empty and `secondsLeft` is always 0 | `Frame 3 / 10 ## 7s` gives `secondsLeft` 0 | the digits before the trailing `s` are the seconds left (7 here), as with a lazy `.*?` | not executed | Progress.MatchProgressAsWritten, Progress.SecondsExample | Progress.ParseProgress, Progress.SecondsParsed |

The model of `run` (`Completion.Execution.OnStdoutData`, `Completion.ProgressOf`) reports
what the code as written emits, 0 seconds left; `Completion.ExampleRunReportsNoSeconds`
shows a run where the corrected parser would report 7.
