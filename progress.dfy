/**
 * Progress markers in the encoder's stdout. A chunk, once trimmed, is a
 * marker when it matches `^Frame (\d+) \/ (\d+).*(\d*)s*$` as a whole: without
 * the multiline flag `^` and `$` anchor at its two ends, and `.` matches any
 * character but a line terminator. The regular expression is rewritten here
 * as an explicit matcher: the two digit groups are read greedily, as the
 * engine's first attempt does, and the third group is found by searching the
 * split points in the order the engine tries them.
 */
module Progress {
  import opened Wrappers
  import opened Decimal
  import opened Strings

  /** A progress event: current frame, total frames and estimated seconds left. */
  datatype Progress = Progress(currentFrame: nat, totalFrames: nat, secondsLeft: nat)

  /** The two digit groups of a marker and the text after the second. */
  datatype Marker = Marker(current: string, total: string, rest: string)

  /** The length of the run of digits `s` starts with. */
  function DigitRun(s: string): (n: nat)
    ensures n <= |s| && AllDigits(s[..n])
    ensures n < |s| ==> !IsDigit(s[n])
  {
    if s != [] && IsDigit(s[0]) then
      var m := DigitRun(s[1..]);
      assert s[..1 + m] == [s[0]] + s[1..][..m];
      1 + m
    else 0
  }

  /** The text after the literal `lit` that `t` starts with. */
  function AfterLiteral(t: string, lit: string): Option<string> {
    if |lit| <= |t| && t[..|lit|] == lit then Some(t[|lit|..]) else None
  }

  lemma AfterLiteralSound(t: string, lit: string)
    requires AfterLiteral(t, lit).Some?
    ensures t == lit + AfterLiteral(t, lit).value
  {
    assert t == t[..|lit|] + t[|lit|..];
  }

  lemma AfterLiteralComplete(lit: string, x: string)
    ensures AfterLiteral(lit + x, lit) == Some(x)
  {
    assert (lit + x)[..|lit|] == lit && (lit + x)[|lit|..] == x;
  }

  /** `(\d+)` read greedily at the start of `t`: the digits and what follows them. */
  function Digits(t: string): Option<(string, string)> {
    var n := DigitRun(t);
    if n == 0 then None else Some((t[..n], t[n..]))
  }

  lemma DigitsSound(t: string)
    requires Digits(t).Some?
    ensures var (d, x) := Digits(t).value;
      t == d + x && |d| > 0 && AllDigits(d) && (x == [] || !IsDigit(x[0]))
  {
    var n := DigitRun(t);
    assert t == t[..n] + t[n..];
  }

  lemma DigitRunOf(d: string, x: string)
    requires AllDigits(d)
    ensures DigitRun(d + x) >= |d|
    ensures x == [] || !IsDigit(x[0]) ==> DigitRun(d + x) == |d|
  {
    if d != [] {
      assert (d + x)[1..] == d[1..] + x;
      DigitRunOf(d[1..], x);
    }
  }

  /** The greedy digit group of `d + x` starts with `d`, and is `d` when `x` does not go on with a digit. */
  lemma DigitsComplete(d: string, x: string)
    requires |d| > 0 && AllDigits(d)
    ensures Digits(d + x).Some?
    ensures var (e, y) := Digits(d + x).value; |e| >= |d| && e[..|d|] == d && y == x[|e| - |d|..]
    ensures x == [] || !IsDigit(x[0]) ==> Digits(d + x) == Some((d, x))
  {
    DigitRunOf(d, x);
    var n := DigitRun(d + x);
    assert (d + x)[n..] == x[n - |d|..];
    assert (d + x)[..n][..|d|] == d;
    if x == [] || !IsDigit(x[0]) {
      assert (d + x)[..n] == d;
    }
  }

  /** `^Frame (\d+) \/ (\d+).*$` on the trimmed chunk `t`, with its two groups and the rest. */
  function MatchMarker(t: string): Option<Marker> {
    match AfterLiteral(t, "Frame ")
    case None => None
    case Some(a) =>
      match Digits(a)
      case None => None
      case Some((current, b)) =>
        match AfterLiteral(b, " / ")
        case None => None
        case Some(c) =>
          match Digits(c)
          case None => None
          case Some((total, rest)) =>
            if NoLineTerminator(rest) then Some(Marker(current, total, rest)) else None
  }

  /** `t` splits as a marker: `Frame `, digits, ` / `, digits, then text on the same line. */
  predicate MarkerShape(t: string, current: string, total: string, rest: string) {
    t == "Frame " + (current + (" / " + (total + rest))) &&
    |current| > 0 && AllDigits(current) && |total| > 0 && AllDigits(total) && NoLineTerminator(rest)
  }

  /** What the matcher finds has the shape of a marker, with the second group read to its end. */
  lemma MatchSound(t: string)
    requires MatchMarker(t).Some?
    ensures var m := MatchMarker(t).value;
      MarkerShape(t, m.current, m.total, m.rest) && (m.rest == [] || !IsDigit(m.rest[0]))
  {
    AfterLiteralSound(t, "Frame ");
    var a := AfterLiteral(t, "Frame ").value;
    DigitsSound(a);
    var b := Digits(a).value.1;
    AfterLiteralSound(b, " / ");
    var c := AfterLiteral(b, " / ").value;
    DigitsSound(c);
  }

  /** Every text of the shape of a marker is matched; the first group is always the given one,
      the second too when the rest does not start with a digit. */
  lemma MatchComplete(t: string, current: string, total: string, rest: string)
    requires MarkerShape(t, current, total, rest)
    ensures MatchMarker(t).Some? && MatchMarker(t).value.current == current
    ensures rest == [] || !IsDigit(rest[0]) ==> MatchMarker(t).value == Marker(current, total, rest)
  {
    var b := " / " + (total + rest);
    AfterLiteralComplete("Frame ", current + b);
    assert b[0] == ' ';
    DigitsComplete(current, b);
    AfterLiteralComplete(" / ", total + rest);
    TailMatch(total, rest);
  }

  /** The second digit group and the rest: what follows the group stays on one line. */
  lemma TailMatch(total: string, rest: string)
    requires |total| > 0 && AllDigits(total) && NoLineTerminator(rest)
    ensures Digits(total + rest).Some? && NoLineTerminator(Digits(total + rest).value.1)
    ensures rest == [] || !IsDigit(rest[0]) ==> Digits(total + rest) == Some((total, rest))
  {
    DigitsComplete(total, rest);
    var (e, y) := Digits(total + rest).value;
    assert forall i :: 0 <= i < |y| ==> y[i] == rest[|e| - |total| + i];
  }

  // The third group, `(\d*)` between `.*` and `s*$`, depends on where the engine splits the rest.

  predicate AllS(s: string) {
    forall i :: 0 <= i < |s| ==> s[i] == 's'
  }

  /** `^(\d*)s*$` on `u`, with its group: the digits must be followed by nothing but `s`. */
  function DigitsThenS(u: string): (r: Option<string>)
    ensures r.Some? ==> AllDigits(r.value)
  {
    var n := DigitRun(u);
    if AllS(u[n..]) then Some(u[..n]) else None
  }

  /** Greedy `.*`: the engine tries the longest prefix first, from split point `k` downwards. */
  function SearchDown(rest: string, k: nat): (r: Option<string>)
    requires k <= |rest|
    ensures r.Some? ==> AllDigits(r.value)
  {
    match DigitsThenS(rest[k..])
    case Some(g) => Some(g)
    case None => if k == 0 then None else SearchDown(rest, k - 1)
  }

  /** Lazy `.*?`: the engine tries the shortest prefix first, from split point `k` upwards. */
  function SearchUp(rest: string, k: nat): (r: Option<string>)
    requires k <= |rest|
    ensures r.Some? ==> AllDigits(r.value)
    decreases |rest| - k
  {
    match DigitsThenS(rest[k..])
    case Some(g) => Some(g)
    case None => if k == |rest| then None else SearchUp(rest, k + 1)
  }

  /** Group 3 as the source's pattern `.*(\d*)s*$` captures it. */
  function GreedyThird(rest: string): Option<string> {
    SearchDown(rest, |rest|)
  }

  /** Group 3 as the pattern `.*?(\d*)s*$` captures it. */
  function LazyThird(rest: string): Option<string> {
    SearchUp(rest, 0)
  }

  /** `matches[3] ? parseInt(matches[3]) : 0`. */
  function SecondsOf(g: Option<string>): nat
    requires g.Some? ==> AllDigits(g.value)
  {
    match g
    case Some(d) => if d == [] then 0 else Value(d)
    case None => 0
  }

  /** The progress event the stdout handler emits for a chunk, as the source is written.
      Because the greedy `.*` leaves nothing to the third group, `secondsLeft` is always 0. */
  function MatchProgressAsWritten(chunk: string): (r: Option<Progress>)
    ensures r.Some? <==> MatchMarker(Trim(chunk)).Some?
    ensures r.Some? ==> r.value.secondsLeft == 0
  {
    match MatchMarker(Trim(chunk))
    case None => None
    case Some(m) => Some(Progress(Value(m.current), Value(m.total), SecondsOf(GreedyThird(m.rest))))
  }

  /** The progress event with the seconds left read from the digits before the final `s`s,
      which is what the third group is there for. */
  function ParseProgress(chunk: string): (r: Option<Progress>)
    ensures r.Some? <==> MatchMarker(Trim(chunk)).Some?
    ensures r.Some? ==> MatchProgressAsWritten(chunk) == Some(r.value.(secondsLeft := 0))
  {
    match MatchMarker(Trim(chunk))
    case None => None
    case Some(m) => Some(Progress(Value(m.current), Value(m.total), SecondsOf(LazyThird(m.rest))))
  }

  /** No split point before the digits `d` works: the text before them ends in a non-digit,
      so the digits would have to be matched by `s*`. */
  lemma {:induction false} LazyFindsSeconds(x: string, d: string, k: nat)
    requires |d| > 0 && AllDigits(d) && (x == [] || !IsDigit(x[|x| - 1]))
    requires k <= |x|
    ensures SearchUp(x + d + "s", k) == Some(d)
    decreases |x| - k
  {
    var rest := x + d + "s";
    var u := rest[k..];
    if k == |x| {
      assert u == d + "s";
      DigitRunOf(d, "s");
      assert u[|d|..] == "s";
      assert u[..|d|] == d;
    } else {
      var n := DigitRun(u);
      assert u[|x| - 1 - k] == x[|x| - 1];
      assert n <= |x| - 1 - k;
      assert u[|x| - k] == d[0];
      assert u[n..][|x| - k - n] == d[0];
      assert !AllS(u[n..]);
      LazyFindsSeconds(x, d, k + 1);
    }
  }

  /** The corrected parser reads the seconds of a marker such as `Frame 3 / 10 #### 7s`. */
  lemma SecondsParsed(chunk: string, current: string, total: string, x: string, d: string)
    requires |x| > 0 && !IsDigit(x[0]) && !IsDigit(x[|x| - 1])
    requires |d| > 0 && AllDigits(d)
    requires MarkerShape(Trim(chunk), current, total, x + d + "s")
    ensures ParseProgress(chunk) == Some(Progress(Value(current), Value(total), Value(d)))
  {
    var rest := x + d + "s";
    assert rest[0] == x[0];
    MatchComplete(Trim(chunk), current, total, rest);
    assert MatchMarker(Trim(chunk)) == Some(Marker(current, total, rest));
    LazyFindsSeconds(x, d, 0);
    assert SecondsOf(LazyThird(rest)) == Value(d);
  }

  /** The source's parser reports 0 seconds for the same marker, whatever the digits say. */
  lemma SecondsIgnoredAsWritten(chunk: string, current: string, total: string, x: string, d: string)
    requires |x| > 0 && !IsDigit(x[0]) && !IsDigit(x[|x| - 1])
    requires |d| > 0 && AllDigits(d)
    requires MarkerShape(Trim(chunk), current, total, x + d + "s")
    ensures MatchProgressAsWritten(chunk) == Some(Progress(Value(current), Value(total), 0))
  {
    var rest := x + d + "s";
    assert rest[0] == x[0];
    MatchComplete(Trim(chunk), current, total, rest);
  }

  const ExampleChunk := "Frame 3 / 10 ## 7s"

  lemma ExampleTrimmed()
    ensures Trim(ExampleChunk) == ExampleChunk
  {
    assert ExampleChunk[0] == 'F' && ExampleChunk[|ExampleChunk| - 1] == 's';
    TrimUntouched(ExampleChunk);
  }

  lemma ExampleShape()
    ensures MarkerShape(Trim(ExampleChunk), "3", "10", " ## " + "7" + "s")
  {
    ExampleTrimmed();
    assert ExampleChunk == "Frame " + ("3" + (" / " + ("10" + (" ## " + "7" + "s"))));
  }

  lemma ExampleValues()
    ensures Value("3") == 3 && Value("10") == 10 && Value("7") == 7
  {
    assert "10"[..1] == "1";
  }

  /** On the marker `Frame 3 / 10 ## 7s` the source reports 0 seconds left, the corrected
      parser 7. */
  lemma SecondsExample()
    ensures MatchProgressAsWritten(ExampleChunk) == Some(Progress(3, 10, 0))
    ensures ParseProgress(ExampleChunk) == Some(Progress(3, 10, 7))
  {
    ExampleShape();
    ExampleValues();
    SecondsParsed(ExampleChunk, "3", "10", " ## ", "7");
    SecondsIgnoredAsWritten(ExampleChunk, "3", "10", " ## ", "7");
  }

  /** A marker yields an event, and the event reports the values of its two digit groups
      (the total whenever the rest does not start with a digit, which would extend it). */
  lemma EventOfMarker(chunk: string, current: string, total: string, rest: string)
    requires MarkerShape(Trim(chunk), current, total, rest)
    ensures MatchProgressAsWritten(chunk).Some?
    ensures MatchProgressAsWritten(chunk).value.currentFrame == Value(current)
    ensures rest == [] || !IsDigit(rest[0]) ==> MatchProgressAsWritten(chunk).value.totalFrames == Value(total)
  {
    MatchComplete(Trim(chunk), current, total, rest);
  }

  /** Conversely, every event reports the values of the two digit groups of the marker it was
      read from. */
  lemma EventReadsGroups(chunk: string)
    requires MatchProgressAsWritten(chunk).Some?
    ensures var m := MatchMarker(Trim(chunk)).value; var p := MatchProgressAsWritten(chunk).value;
      MarkerShape(Trim(chunk), m.current, m.total, m.rest) &&
      p.currentFrame == Value(m.current) && p.totalFrames == Value(m.total)
  {
    MatchSound(Trim(chunk));
  }
}
