/*
  The audio-thread frame buffer: incoming blocks are mixed to mono and
  accumulated sample by sample in a 2048-slot buffer. Whenever the buffer
  fills, its contents are posted to the main thread as one frame and the
  newest 1536 samples are moved to the front (a hop of 512 samples), so
  consecutive frames overlap by 75%.
*/
module FrameBuffer {
  import opened Stats

  const FRAME_SIZE: nat := 2048
  const HOP_SIZE: nat := 512
  /** Samples carried over from one frame to the next. */
  const OVERLAP: nat := 1536

  // ---------------------------------------------------------------------------
  // Mixing to mono
  // ---------------------------------------------------------------------------

  /** A channel's sample at an index; a channel shorter than the first one
      contributes 0 there. */
  function SampleOrZero(channel: seq<real>, i: nat): real
  {
    if i < |channel| then channel[i] else 0.0
  }

  /** Sum of the first k channels' samples at index i. */
  function ChannelSum(input: seq<seq<real>>, i: nat, k: nat): real
    requires k <= |input|
  {
    if k == 0 then 0.0 else ChannelSum(input, i, k - 1) + SampleOrZero(input[k - 1], i)
  }

  /** One mono sample: the mean over all channels when there are several,
      the first channel's sample otherwise. */
  function MonoSample(input: seq<seq<real>>, i: nat): real
    requires |input| > 0 && i < |input[0]|
  {
    if |input| > 1 then ChannelSum(input, i, |input|) / |input| as real else input[0][i]
  }

  /** The mono signal: as long as the first channel. */
  function Mono(input: seq<seq<real>>): (r: seq<real>)
    requires |input| > 0
    ensures |r| == |input[0]|
  {
    seq(|input[0]|, i requires 0 <= i < |input[0]| => MonoSample(input, i))
  }

  lemma {:induction false} SumOfEqualChannels(input: seq<seq<real>>, c: seq<real>, i: nat, k: nat)
    requires k <= |input| && i < |c|
    requires forall ch :: 0 <= ch < |input| ==> input[ch] == c
    ensures ChannelSum(input, i, k) == k as real * c[i]
  {
    if k > 0 {
      SumOfEqualChannels(input, c, i, k - 1);
    }
  }

  /** Mixing channels that all carry the same signal gives back that signal. */
  lemma MonoOfEqualChannels(input: seq<seq<real>>, c: seq<real>)
    requires |input| > 0
    requires forall ch :: 0 <= ch < |input| ==> input[ch] == c
    ensures Mono(input) == c
  {
    forall i | 0 <= i < |c|
      ensures Mono(input)[i] == c[i]
    {
      if |input| > 1 {
        var n := |input| as real;
        SumOfEqualChannels(input, c, i, |input|);
        QuotientWithin(ChannelSum(input, i, |input|), n, c[i], c[i]);
      }
    }
  }

  predicate SamplesWithin(input: seq<seq<real>>, lo: real, hi: real)
  {
    forall ch, j :: 0 <= ch < |input| && 0 <= j < |input[ch]| ==> lo <= input[ch][j] <= hi
  }

  lemma {:induction false} ChannelSumWithin(input: seq<seq<real>>, i: nat, k: nat, lo: real, hi: real)
    requires k <= |input| && lo <= 0.0 <= hi && SamplesWithin(input, lo, hi)
    ensures k as real * lo <= ChannelSum(input, i, k) <= k as real * hi
  {
    if k > 0 {
      ChannelSumWithin(input, i, k - 1, lo, hi);
    }
  }

  /** Mixing never leaves the range of the channel samples (missing samples
      count as 0, so the range must contain 0): full-scale input in [-1, 1]
      stays in [-1, 1]. */
  lemma MonoWithin(input: seq<seq<real>>, lo: real, hi: real)
    requires |input| > 0 && lo <= 0.0 <= hi && SamplesWithin(input, lo, hi)
    ensures forall i :: 0 <= i < |input[0]| ==> lo <= Mono(input)[i] <= hi
  {
    forall i | 0 <= i < |input[0]|
      ensures lo <= Mono(input)[i] <= hi
    {
      if |input| > 1 {
        ChannelSumWithin(input, i, |input|, lo, hi);
        QuotientWithin(ChannelSum(input, i, |input|), |input| as real, lo, hi);
      }
    }
  }

  /** Builds the mono signal: a plain copy of a single channel, otherwise
      the per-index mean over the channels. */
  method MixToMono(input: seq<seq<real>>) returns (mono: array<real>)
    requires |input| > 0
    ensures fresh(mono) && mono[..] == Mono(input)
  {
    var channel := input[0];
    mono := new real[|channel|];
    if |input| > 1 {
      var i := 0;
      while i < |channel|
        invariant 0 <= i <= |channel|
        invariant forall j :: 0 <= j < i ==> mono[j] == MonoSample(input, j)
      {
        var sum := 0.0;
        var ch := 0;
        while ch < |input|
          invariant 0 <= ch <= |input|
          invariant sum == ChannelSum(input, i, ch)
        {
          sum := sum + SampleOrZero(input[ch], i);
          ch := ch + 1;
        }
        mono[i] := sum / |input| as real;
        i := i + 1;
      }
    } else {
      forall i | 0 <= i < mono.Length {
        mono[i] := channel[i];
      }
    }
  }

  // ---------------------------------------------------------------------------
  // Framing
  // ---------------------------------------------------------------------------

  /** Frames posted after n samples in total: the first after 2048 samples,
      then one every 512. */
  function FrameCount(n: nat): nat
  {
    if n < FRAME_SIZE then 0 else 1 + (n - FRAME_SIZE) / HOP_SIZE
  }

  /** Write position after n samples in total: it never reaches the end of
      the buffer, and once the first frame is out it never drops below the
      overlap again. */
  function IndexAfter(n: nat): (r: nat)
    ensures r <= n && r < FRAME_SIZE
    ensures n >= FRAME_SIZE ==> OVERLAP <= r
  {
    if n < FRAME_SIZE then n else OVERLAP + (n - FRAME_SIZE) % HOP_SIZE
  }

  lemma FrameFits(n: nat, k: nat)
    requires k < FrameCount(n)
    ensures HOP_SIZE * k + FRAME_SIZE <= n
  {
    var q := (n - FRAME_SIZE) / HOP_SIZE;
    assert k <= q;
    assert HOP_SIZE * q <= n - FRAME_SIZE;
  }

  /** The frames posted for a sample stream: frame k is the window of 2048
      samples starting at sample 512 * k. */
  function FramesOf(stream: seq<real>): (r: seq<seq<real>>)
    ensures |r| == FrameCount(|stream|)
    ensures forall k :: 0 <= k < |r| ==> |r[k]| == FRAME_SIZE
  {
    seq(FrameCount(|stream|), k requires 0 <= k < FrameCount(|stream|) =>
      FrameFits(|stream|, k);
      stream[HOP_SIZE * k .. HOP_SIZE * k + FRAME_SIZE])
  }

  /** Consecutive frames share 1536 samples: the tail of one is the head of
      the next. */
  lemma FramesOverlap(stream: seq<real>, k: nat)
    requires k + 1 < FrameCount(|stream|)
    ensures FramesOf(stream)[k][HOP_SIZE..] == FramesOf(stream)[k + 1][..OVERLAP]
  {
    FrameFits(|stream|, k + 1);
    var f := FramesOf(stream);
    assert f[k][HOP_SIZE..] == stream[HOP_SIZE * k + HOP_SIZE .. HOP_SIZE * k + FRAME_SIZE];
    assert f[k + 1][..OVERLAP] == stream[HOP_SIZE * (k + 1) .. HOP_SIZE * (k + 1) + OVERLAP];
  }

  /** Frames once posted are never revised: more input only adds frames. */
  lemma FramesPrefix(stream: seq<real>, more: seq<real>)
    ensures FramesOf(stream) <= FramesOf(stream + more)
  {
    var f, g := FramesOf(stream), FramesOf(stream + more);
    forall k | 0 <= k < |f|
      ensures f[k] == g[k]
    {
      FrameFits(|stream|, k);
      assert (stream + more)[HOP_SIZE * k .. HOP_SIZE * k + FRAME_SIZE]
          == stream[HOP_SIZE * k .. HOP_SIZE * k + FRAME_SIZE];
    }
  }

  /** One more sample either advances the index, or completes a frame,
      whose window ends at the new sample, and rewinds to the overlap. */
  lemma IndexStep(n: nat)
    ensures IndexAfter(n) + 1 < FRAME_SIZE ==>
      IndexAfter(n + 1) == IndexAfter(n) + 1 && FrameCount(n + 1) == FrameCount(n)
    ensures IndexAfter(n) + 1 == FRAME_SIZE ==>
      IndexAfter(n + 1) == OVERLAP && FrameCount(n + 1) == FrameCount(n) + 1
      && HOP_SIZE * FrameCount(n) + FRAME_SIZE == n + 1
  {
    if n >= FRAME_SIZE {
      var m := n - FRAME_SIZE;
      var q, r := m / HOP_SIZE, m % HOP_SIZE;
      assert m == HOP_SIZE * q + r;
      if r + 1 < HOP_SIZE {
        assert m + 1 == HOP_SIZE * q + (r + 1);
        assert (m + 1) / HOP_SIZE == q && (m + 1) % HOP_SIZE == r + 1;
      } else {
        assert m + 1 == HOP_SIZE * (q + 1);
        assert (m + 1) / HOP_SIZE == q + 1 && (m + 1) % HOP_SIZE == 0;
      }
    }
  }

  lemma FramesStep(stream: seq<real>, x: real)
    ensures FrameCount(|stream| + 1) == FrameCount(|stream|) ==>
      FramesOf(stream + [x]) == FramesOf(stream)
    ensures FrameCount(|stream| + 1) == FrameCount(|stream|) + 1 ==>
      FramesOf(stream + [x]) == FramesOf(stream) + [(stream + [x])[|stream| + 1 - FRAME_SIZE..]]
  {
    FramesPrefix(stream, [x]);
    var f, g := FramesOf(stream), FramesOf(stream + [x]);
    if |g| == |f| + 1 {
      var k := |f|;
      FrameFits(|stream| + 1, k);
      IndexStep(|stream|);
      var s := stream + [x];
      assert HOP_SIZE * k + FRAME_SIZE == |s|;
      assert g[k] == s[|s| - FRAME_SIZE..];
      assert g == f + [g[k]];
    }
  }

  // ---------------------------------------------------------------------------
  // The processor
  // ---------------------------------------------------------------------------

  /** An input list is missing when there is no first input or it has no
      first channel; the processor then does nothing. */
  predicate Missing(inputs: seq<seq<seq<real>>>)
  {
    |inputs| == 0 || |inputs[0]| == 0
  }

  class BPMProcessor {
    const buffer: array<real>
    var bufferIndex: nat
    /** Frames posted to the main thread, oldest first. */
    var posted: seq<seq<real>>
    /** Every mono sample accepted so far. */
    ghost var consumed: seq<real>

    /** The buffer holds, before the write index, the most recent samples
        of the stream; what lies beyond the index is stale and is always
        overwritten before the next frame is posted. */
    ghost predicate Valid()
      reads this, buffer
    {
      buffer.Length == FRAME_SIZE
      && bufferIndex == IndexAfter(|consumed|)
      && buffer[..bufferIndex] == consumed[|consumed| - bufferIndex..]
      && posted == FramesOf(consumed)
    }

    constructor()
      ensures Valid() && fresh(buffer)
      ensures bufferIndex == 0 && posted == [] && consumed == []
      ensures forall i :: 0 <= i < buffer.Length ==> buffer[i] == 0.0
    {
      buffer := new real[FRAME_SIZE](_ => 0.0);
      bufferIndex := 0;
      posted := [];
      consumed := [];
    }

    /** Accepts one mono sample, posting a frame and hopping when the
        buffer is full. */
    method Push(x: real)
      requires Valid()
      modifies this`bufferIndex, this`posted, this`consumed, buffer
      ensures Valid() && consumed == old(consumed) + [x]
    {
      ghost var n, before := |consumed|, buffer[..bufferIndex];
      IndexStep(n);
      FramesStep(consumed, x);
      buffer[bufferIndex] := x;
      bufferIndex := bufferIndex + 1;
      consumed := consumed + [x];
      assert buffer[..bufferIndex] == before + [x];
      if bufferIndex >= FRAME_SIZE {
        assert buffer[..] == consumed[|consumed| - FRAME_SIZE..];
        posted := posted + [buffer[..]];
        ghost var frame := buffer[..];
        forall i | 0 <= i < OVERLAP {
          buffer[i] := buffer[i + HOP_SIZE];
        }
        bufferIndex := OVERLAP;
        assert buffer[..bufferIndex] == frame[HOP_SIZE..];
      }
    }

    /** The audio callback: mixes the first input to mono and feeds every
        sample through the buffer. It keeps the processor alive in every
        case. */
    method Process(inputs: seq<seq<seq<real>>>) returns (keepAlive: bool)
      requires Valid()
      modifies this`bufferIndex, this`posted, this`consumed, buffer
      ensures Valid() && keepAlive
      ensures Missing(inputs) ==>
        consumed == old(consumed) && posted == old(posted)
        && bufferIndex == old(bufferIndex) && buffer[..] == old(buffer[..])
      ensures !Missing(inputs) ==> consumed == old(consumed) + Mono(inputs[0])
    {
      if Missing(inputs) {
        return true;
      }
      var mono := MixToMono(inputs[0]);
      var i := 0;
      while i < mono.Length
        invariant 0 <= i <= mono.Length
        invariant Valid()
        invariant consumed == old(consumed) + mono[..i]
        invariant mono[..] == Mono(inputs[0])
      {
        Push(mono[i]);
        assert mono[..i + 1] == mono[..i] + [mono[i]];
        i := i + 1;
      }
      assert mono[..mono.Length] == mono[..];
      return true;
    }
  }
}
