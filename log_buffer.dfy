/**
 * The bounded line buffers that keep the encoder's recent output. A buffer
 * with a cap of `maxLines` evicts its oldest chunk when it already holds
 * exactly `maxLines` chunks; a cap of 0 (or any cap its length can never
 * equal, such as a negative one) keeps everything.
 */
module LogBuffer {

  function Min(a: int, b: int): int {
    if a <= b then a else b
  }

  /** What a buffer with cap `maxLines` holds after receiving `xs`: the newest
      `maxLines` chunks when the cap is positive, all of them otherwise, in arrival order. */
  function Window<T>(xs: seq<T>, maxLines: int): (r: seq<T>)
    ensures maxLines > 0 ==> |r| == Min(|xs|, maxLines)
    ensures maxLines <= 0 ==> r == xs
    ensures r == xs[|xs| - |r|..]
  {
    if maxLines > 0 && |xs| > maxLines then xs[|xs| - maxLines..] else xs
  }

  /** The buffer is no longer than its cap allows. */
  predicate WithinCap<T>(data: seq<T>, maxLines: int) {
    maxLines > 0 ==> |data| <= maxLines
  }

  /** One capped push of the command: `shift()` when the buffer holds exactly `maxLines`
      chunks and the cap is not 0, then `push(x)`. */
  function Push<T>(data: seq<T>, maxLines: int, x: T): seq<T> {
    if maxLines != 0 && |data| == maxLines then data[1..] + [x] else data + [x]
  }

  /** The buffer after the capped pushes of `xs`, one after the other, starting from `data`. */
  function PushAll<T>(data: seq<T>, maxLines: int, xs: seq<T>): seq<T>
    decreases |xs|
  {
    if xs == [] then data else Push(PushAll(data, maxLines, xs[..|xs| - 1]), maxLines, xs[|xs| - 1])
  }

  /** A push onto the window of `xs` is the window of `xs` with `x` added. */
  lemma PushWindow<T>(xs: seq<T>, maxLines: int, x: T)
    ensures Push(Window(xs, maxLines), maxLines, x) == Window(xs + [x], maxLines)
  {
    var w := Window(xs, maxLines);
    var ys := xs + [x];
    if maxLines > 0 && |xs| >= maxLines {
      assert w[1..] + [x] == ys[|ys| - maxLines..];
    }
  }

  /** Pushing a sequence of chunks one by one into an empty buffer leaves the newest
      `maxLines` of them (all of them when the cap is not positive), oldest evicted first. */
  lemma {:induction false} PushAllWindow<T>(maxLines: int, xs: seq<T>)
    ensures PushAll([], maxLines, xs) == Window(xs, maxLines)
    ensures WithinCap(PushAll([], maxLines, xs), maxLines)
    decreases |xs|
  {
    if xs != [] {
      var init := xs[..|xs| - 1];
      PushAllWindow(maxLines, init);
      PushWindow(init, maxLines, xs[|xs| - 1]);
      assert init + [xs[|xs| - 1]] == xs;
    }
  }

  /** With distinct chunks and a positive cap, a chunk is still held exactly when fewer
      than `maxLines` chunks arrived after it. */
  lemma EvictedAreOldest<T>(xs: seq<T>, maxLines: int, i: nat)
    requires maxLines > 0 && i < |xs|
    requires forall j, k :: 0 <= j < k < |xs| ==> xs[j] != xs[k]
    ensures xs[i] in Window(xs, maxLines) <==> i >= |xs| - maxLines
  {
    var w := Window(xs, maxLines);
    var off := |xs| - |w|;
    if xs[i] in w {
      var k :| 0 <= k < |w| && w[k] == xs[i];
      assert xs[off + k] == xs[i];
    }
  }

  /** One bounded buffer: the chunks it holds and its cap. */
  class LogBuffer<T> {
    var data: seq<T>
    const maxLines: int

    constructor (maxLines: int)
      ensures this.maxLines == maxLines && data == []
    {
      this.maxLines := maxLines;
      data := [];
    }

    /** The capped push. From a buffer within its cap, the newest chunks are kept. */
    method Append(x: T)
      modifies this
      ensures data == Push(old(data), maxLines, x)
      ensures WithinCap(old(data), maxLines) ==>
        WithinCap(data, maxLines) && data == Window(old(data) + [x], maxLines)
    {
      if maxLines != 0 && |data| == maxLines {
        data := data[1..];
      }
      data := data + [x];
      if WithinCap(old(data), maxLines) {
        assert Window(old(data), maxLines) == old(data);
        PushWindow(old(data), maxLines, x);
      }
    }

    /** The push without the cap check, as for the encoded bytes written to stdout. */
    method AppendUncapped(x: T)
      modifies this
      ensures data == old(data) + [x]
    {
      data := data + [x];
    }
  }
}
