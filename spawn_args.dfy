/**
 * The encoder's command line. The options record becomes, in a fixed order,
 * the flags whose options are set, then `-o <output>` and the frame paths.
 * An option is set when it is truthy in JavaScript's sense: a missing number
 * or `0` is not, a missing boolean or `false` is not.
 */
module SpawnArgs {
  import opened Wrappers
  import opened Decimal

  /** The options the command is constructed with. Missing booleans are `false`. */
  datatype Options = Options(
    output: string,
    frames: seq<string>,
    fps: Option<int>,
    fast: bool,
    extra: bool,
    quality: Option<int>,
    width: Option<int>,
    height: Option<int>,
    noSort: bool,
    quiet: bool,
    repeat: Option<int>,
    stdoutLines: Option<int>)

  /** A numeric option passes JavaScript's `if (x)`. */
  predicate Truthy(n: Option<int>) {
    n.Some? && n.value != 0
  }

  /** The two tokens `flag <value>` when the option is set, nothing otherwise. */
  function Valued(flag: string, n: Option<int>): seq<string> {
    if Truthy(n) then [flag, IntToString(n.value)] else []
  }

  /** The token `flag` when the switch is on, nothing otherwise. */
  function Switch(flag: string, b: bool): seq<string> {
    if b then [flag] else []
  }

  /** The optional part of the command line: the flags in the encoder's fixed order,
      each only when its option is set. */
  function OptionalFlags(o: Options): seq<string> {
    Valued("--fps", o.fps) + Switch("--fast", o.fast) + Switch("--extra", o.extra) +
    Valued("--quality", o.quality) + Valued("--width", o.width) + Valued("--height", o.height) +
    Switch("--no-sort", o.noSort) + Switch("--quiet", o.quiet) + Valued("--repeat", o.repeat)
  }

  /** One `if (x) { processArgs.push(flag, x.toString()); }` of the command. */
  method PushValued(args: seq<string>, flag: string, n: Option<int>) returns (r: seq<string>)
    ensures r == args + Valued(flag, n)
  {
    r := args;
    if Truthy(n) {
      r := r + [flag, IntToString(n.value)];
    }
  }

  /** One `if (b) { processArgs.push(flag); }` of the command. */
  method PushSwitch(args: seq<string>, flag: string, b: bool) returns (r: seq<string>)
    ensures r == args + Switch(flag, b)
  {
    r := args;
    if b {
      r := r + [flag];
    }
  }

  /** The conditional pushes of `_buildSpawnArgs`, onto an empty list. */
  method PushOptionalFlags(o: Options) returns (args: seq<string>)
    ensures args == OptionalFlags(o)
  {
    args := PushValued([], "--fps", o.fps);
    assert args == Valued("--fps", o.fps);
    args := PushSwitch(args, "--fast", o.fast);
    args := PushSwitch(args, "--extra", o.extra);
    args := PushValued(args, "--quality", o.quality);
    args := PushValued(args, "--width", o.width);
    args := PushValued(args, "--height", o.height);
    args := PushSwitch(args, "--no-sort", o.noSort);
    args := PushSwitch(args, "--quiet", o.quiet);
    args := PushValued(args, "--repeat", o.repeat);
  }

  /** The whole command line: the optional part, then `-o`, the output and the frames. */
  function CommandLine(o: Options): seq<string> {
    OptionalFlags(o) + (["-o", o.output] + o.frames)
  }

  /** `_buildSpawnArgs`: the conditional pushes, then `-o`, the output and the frames. */
  method BuildSpawnArgs(o: Options) returns (args: seq<string>)
    ensures args == CommandLine(o)
  {
    var flags := PushOptionalFlags(o);
    args := flags + ["-o", o.output] + o.frames;
  }

  lemma SplitAt(flags: seq<string>, tail: seq<string>, f: Option<Flags>)
    requires DecodeFlags(flags) == f
    ensures (flags + tail)[|flags|..] == tail
    ensures DecodeFlags((flags + tail)[..|flags|]) == f
  {
    assert (flags + tail)[..|flags|] == flags;
  }

  /** The command line holds the optional part, read back as exactly the options that are
      set, followed by `-o`, the output and the frames in their given order. */
  lemma CommandLineReadsBack(o: Options)
    ensures CommandLine(o)[|OptionalFlags(o)|..] == ["-o", o.output] + o.frames
    ensures DecodeFlags(CommandLine(o)[..|OptionalFlags(o)|]) == Some(Requested(o))
  {
    DecodeRoundTrip(o);
    SplitAt(OptionalFlags(o), ["-o", o.output] + o.frames, Some(Requested(o)));
  }

  // A reference reading of the optional part of a command line, independent of how it is built.

  /** What the encoder is asked for: each flag's value, or `None`/`false` when the flag is absent. */
  datatype Flags = Flags(
    fps: Option<int>, fast: bool, extra: bool, quality: Option<int>, width: Option<int>,
    height: Option<int>, noSort: bool, quiet: bool, repeat: Option<int>)

  /** The value an option contributes to the command line: `None` unless it is truthy. */
  function Present(n: Option<int>): Option<int> {
    if Truthy(n) then n else None
  }

  function Requested(o: Options): Flags {
    Flags(Present(o.fps), o.fast, o.extra, Present(o.quality), Present(o.width),
          Present(o.height), o.noSort, o.quiet, Present(o.repeat))
  }

  /** Reads `flag <numeral>` at the end of `ts`, if it is there. */
  function TakeLastValue(flag: string, ts: seq<string>): (Option<int>, seq<string>) {
    if |ts| >= 2 && ts[|ts| - 2] == flag && IsNumeral(ts[|ts| - 1])
    then (Some(ParseInt(ts[|ts| - 1])), ts[..|ts| - 2])
    else (None, ts)
  }

  /** Reads `flag` at the end of `ts`, if it is there. */
  function TakeLastSwitch(flag: string, ts: seq<string>): (bool, seq<string>) {
    if |ts| >= 1 && ts[|ts| - 1] == flag then (true, ts[..|ts| - 1]) else (false, ts)
  }

  /** Reads the flags from the last one back to the first in the fixed order; fails when
      anything is left over, so a flag out of order, a repeated flag or a flag without its
      numeral is rejected. */
  function DecodeFlags(ts: seq<string>): Option<Flags> {
    var (repeat, t8) := TakeLastValue("--repeat", ts);
    var (quiet, t7) := TakeLastSwitch("--quiet", t8);
    var (noSort, t6) := TakeLastSwitch("--no-sort", t7);
    var (height, t5) := TakeLastValue("--height", t6);
    var (width, t4) := TakeLastValue("--width", t5);
    var (quality, t3) := TakeLastValue("--quality", t4);
    var (extra, t2) := TakeLastSwitch("--extra", t3);
    var (fast, t1) := TakeLastSwitch("--fast", t2);
    var (fps, t0) := TakeLastValue("--fps", t1);
    if t0 == [] then Some(Flags(fps, fast, extra, quality, width, height, noSort, quiet, repeat)) else None
  }

  predicate IsFlagToken(t: string) {
    |t| >= 2 && t[0] == '-' && t[1] == '-'
  }

  lemma TakeLastValueRoundTrip(flag: string, before: seq<string>, n: Option<int>)
    requires IsFlagToken(flag) && flag !in before
    ensures TakeLastValue(flag, before + Valued(flag, n)) == (Present(n), before)
  {
    if Truthy(n) {
      IntRoundTrip(n.value);
      assert (before + Valued(flag, n))[..|before|] == before;
    } else {
      assert before + Valued(flag, n) == before;
      assert |before| >= 2 ==> before[|before| - 2] in before;
    }
  }

  lemma TakeLastSwitchRoundTrip(flag: string, before: seq<string>, b: bool)
    requires flag !in before
    ensures TakeLastSwitch(flag, before + Switch(flag, b)) == (b, before)
  {
    if b {
      assert (before + Switch(flag, b))[..|before|] == before;
    } else {
      assert before + Switch(flag, b) == before;
      assert |before| >= 1 ==> before[|before| - 1] in before;
    }
  }

  /** Every token of a valued segment is its flag or a numeral, so it differs from any other flag. */
  lemma NotInValued(other: string, flag: string, n: Option<int>)
    requires IsFlagToken(other) && other != flag
    ensures other !in Valued(flag, n)
  {
    if Truthy(n) {
      IntStringNotFlag(n.value);
    }
  }

  /** Reading the optional part back gives exactly the options that were set, in the
      fixed order, each valued flag with its own number. */
  lemma DecodeRoundTrip(o: Options)
    ensures DecodeFlags(OptionalFlags(o)) == Some(Requested(o))
  {
    var t1 := Valued("--fps", o.fps);
    var t2 := t1 + Switch("--fast", o.fast);
    var t3 := t2 + Switch("--extra", o.extra);
    var t4 := t3 + Valued("--quality", o.quality);
    var t5 := t4 + Valued("--width", o.width);
    var t6 := t5 + Valued("--height", o.height);
    var t7 := t6 + Switch("--no-sort", o.noSort);
    var t8 := t7 + Switch("--quiet", o.quiet);
    assert TakeLastValue("--repeat", OptionalFlags(o)) == (Present(o.repeat), t8) by {
      NotInValued("--repeat", "--fps", o.fps);
      NotInValued("--repeat", "--quality", o.quality);
      NotInValued("--repeat", "--width", o.width);
      NotInValued("--repeat", "--height", o.height);
      TakeLastValueRoundTrip("--repeat", t8, o.repeat);
    }
    assert TakeLastSwitch("--quiet", t8) == (o.quiet, t7) by {
      NotInValued("--quiet", "--fps", o.fps);
      NotInValued("--quiet", "--quality", o.quality);
      NotInValued("--quiet", "--width", o.width);
      NotInValued("--quiet", "--height", o.height);
      TakeLastSwitchRoundTrip("--quiet", t7, o.quiet);
    }
    assert TakeLastSwitch("--no-sort", t7) == (o.noSort, t6) by {
      NotInValued("--no-sort", "--fps", o.fps);
      NotInValued("--no-sort", "--quality", o.quality);
      NotInValued("--no-sort", "--width", o.width);
      NotInValued("--no-sort", "--height", o.height);
      TakeLastSwitchRoundTrip("--no-sort", t6, o.noSort);
    }
    assert TakeLastValue("--height", t6) == (Present(o.height), t5) by {
      NotInValued("--height", "--fps", o.fps);
      NotInValued("--height", "--quality", o.quality);
      NotInValued("--height", "--width", o.width);
      TakeLastValueRoundTrip("--height", t5, o.height);
    }
    assert TakeLastValue("--width", t5) == (Present(o.width), t4) by {
      NotInValued("--width", "--fps", o.fps);
      NotInValued("--width", "--quality", o.quality);
      TakeLastValueRoundTrip("--width", t4, o.width);
    }
    assert TakeLastValue("--quality", t4) == (Present(o.quality), t3) by {
      NotInValued("--quality", "--fps", o.fps);
      TakeLastValueRoundTrip("--quality", t3, o.quality);
    }
    assert TakeLastSwitch("--extra", t3) == (o.extra, t2) by {
      NotInValued("--extra", "--fps", o.fps);
      TakeLastSwitchRoundTrip("--extra", t2, o.extra);
    }
    assert TakeLastSwitch("--fast", t2) == (o.fast, t1) by {
      NotInValued("--fast", "--fps", o.fps);
      TakeLastSwitchRoundTrip("--fast", t1, o.fast);
    }
    assert TakeLastValue("--fps", t1) == (Present(o.fps), []) by {
      assert [] + t1 == t1;
      TakeLastValueRoundTrip("--fps", [], o.fps);
    }
  }
}
