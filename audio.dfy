/** Constants and the interleaved output buffer shared by the three demo programs
    (Waveforms, HelloSine, log2). Every callback writes one mono sample per frame
    into channel 0 and copies it into the remaining channels. */
module Audio {

  /** MY_SRATE: frames per second of every stream the programs open. */
  const SampleRate: real := 44100.0

  /** MY_CHANNELS: interleaved output channels per frame. */
  const Channels: nat := 2

  /** MY_PIE: the programs' own approximation of pi. */
  const Pie: real := 3.14159265358979

  /** How a callback ends: `return code` to the audio driver, or `exit(code)` of the process. */
  datatype Status = Returned(code: int) | Exited(code: int)

  /** The buffer after frames 0 .. |samples|-1 have been written: every slot of frame i
      holds samples[i], and the slots past the last written frame are as they were. */
  function Filled(before: seq<real>, samples: seq<real>): (after: seq<real>)
    requires Channels * |samples| <= |before|
    ensures |after| == |before|
  {
    seq(|before|, k requires 0 <= k < |before| =>
      if k < Channels * |samples| then samples[k / Channels] else before[k])
  }

  /** The slots of the filled buffer: frame k / Channels of the samples where one was
      written, the old contents elsewhere. */
  lemma FilledSlots(before: seq<real>, samples: seq<real>, k: nat)
    requires Channels * |samples| <= |before| && k < |before|
    ensures k < Channels * |samples| ==> Filled(before, samples)[k] == samples[k / Channels]
    ensures k >= Channels * |samples| ==> Filled(before, samples)[k] == before[k]
  {
  }

  /** Channel replication: every channel of a written frame equals channel 0 of that frame. */
  lemma ChannelsAgree(before: seq<real>, samples: seq<real>, i: nat, c: nat)
    requires Channels * |samples| <= |before|
    requires i < |samples| && c < Channels
    ensures Filled(before, samples)[i * Channels + c] == Filled(before, samples)[i * Channels]
    ensures Filled(before, samples)[i * Channels] == samples[i]
  {
    FrameOf(i, c);
    FrameOf(i, 0);
  }

  /** The buffer s with every slot of frame i set to v. */
  function Framed(s: seq<real>, i: nat, v: real): (r: seq<real>)
    requires Channels * i + Channels <= |s|
    ensures |r| == |s|
  {
    seq(|s|, k requires 0 <= k < |s| =>
      if Channels * i <= k < Channels * i + Channels then v else s[k])
  }

  /** Writing one more frame, as PutFrame does, extends the filled prefix by that frame. */
  lemma FilledAppend(before: seq<real>, written: seq<real>, v: real, cur: seq<real>, next: seq<real>)
    requires Channels * (|written| + 1) <= |before|
    requires cur == Filled(before, written)
    requires next == Framed(cur, |written|, v)
    ensures next == Filled(before, written + [v])
  {
    var s := written + [v];
    forall k | 0 <= k < |next|
      ensures next[k] == Filled(before, s)[k]
    {
      if k < Channels * |written| {
        assert k / Channels < |written|;
      } else if k < Channels * |s| {
        assert k / Channels == |written|;
      }
    }
  }

  /** One more frame of a run whose samples are known in advance. */
  lemma Appended(before: seq<real>, samples: seq<real>, i: nat, cur: seq<real>, next: seq<real>)
    requires i < |samples| && Channels * |samples| <= |before|
    requires cur == Filled(before, samples[..i])
    requires next == Framed(cur, i, samples[i])
    ensures next == Filled(before, samples[..i + 1])
  {
    FilledAppend(before, samples[..i], samples[i], cur, next);
    assert samples[..i] + [samples[i]] == samples[..i + 1];
  }

  /** Slot c of frame i belongs to frame i. */
  lemma FrameOf(i: nat, c: nat)
    requires c < Channels
    ensures (i * Channels + c) / Channels == i
  {
  }

  /** One frame of a callback's inner loop: write v to channel 0 of frame i, then copy
      channel 0 into channels 1 .. Channels-1. No other slot changes. */
  method PutFrame(buf: array<real>, i: nat, v: real)
    requires Channels * i + Channels <= buf.Length
    modifies buf
    ensures buf[..] == Framed(old(buf[..]), i, v)
  {
    buf[i * Channels] := v;
    for j := 1 to Channels
      invariant forall k :: 0 <= k < buf.Length ==>
        buf[k] == if Channels * i <= k < Channels * i + j then v else old(buf[k])
    {
      buf[i * Channels + j] := buf[i * Channels];
    }
    assert buf[..] == Framed(old(buf[..]), i, v);
  }
}
