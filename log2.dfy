/** log2.cpp: a program that opens a stream on a callback that writes nothing. It also
    carries a sine callback of its own that main never opens. */
module Log2 {
  import opened Audio
  import opened Wave

  /** The program's globals: g_t and g_freq. main never sets g_freq, so it keeps its
      initial 0.0. */
  class Program {
    var t: real
    var freq: real

    /** Process start: both globals are zero. */
    constructor ()
      ensures t == 0.0 && freq == 0.0
    {
      t := 0.0;
      freq := 0.0;
    }

    /** callmeEditFile: returns 0 and writes nothing; the buffer keeps whatever the
        driver left in it and no global changes. */
    method EditFile(buf: array<real>, numFrames: nat) returns (status: int)
      ensures status == 0
    {
      return 0;
    }

    /** callmeSine: frame i gets sin(2 pi freq (t0 + i) / 44100) on both channels and
        the sample number advances by numFrames. */
    method Sine(buf: array<real>, numFrames: nat, sine: real -> real) returns (status: int)
      requires Channels * numFrames <= buf.Length
      modifies this`t, buf
      ensures status == 0
      ensures buf[..] == Filled(old(buf[..]), SineSamples(sine, freq, old(t), numFrames))
      ensures t == old(t) + numFrames as real
    {
      ghost var t0 := t;
      ghost var samples := SineSamples(sine, freq, t0, numFrames);
      for i := 0 to numFrames
        invariant t == t0 + i as real
        invariant buf[..] == Filled(old(buf[..]), samples[..i])
      {
        ghost var cur := buf[..];
        var v := sine(2.0 * Pie * freq * t / SampleRate);
        assert v == SineSample(sine, freq, t);
        assert SineSample(sine, freq, t) == samples[i];
        PutFrame(buf, i, v);
        Appended(old(buf[..]), samples, i, cur, buf[..]);
        t := t + 1.0;
      }
      assert samples[..numFrames] == samples;
      return 0;
    }
  }

  /** What main does: open a stream on callmeEditFile, or exit. */
  datatype Start = OpenEditFile | Quit(status: Status)

  /** main: no output device, or any command-line argument, exits with status 1;
      otherwise the stream is opened on callmeEditFile. */
  function Launch(devices: int, argc: int): (s: Start)
    ensures s == OpenEditFile <==> devices >= 1 && argc == 1
    ensures s != OpenEditFile ==> s == Quit(Exited(1))
  {
    if devices < 1 then Quit(Exited(1))
    else if argc != 1 then Quit(Exited(1))
    else OpenEditFile
  }

  /** The sine callback a zero frequency would produce is silence: with g_freq never
      set, every frame of callmeSine is sin(0). */
  lemma UnsetFrequencyIsSilent(sine: real -> real, t0: real, n: nat, i: nat)
    requires i < n
    ensures SineSamples(sine, 0.0, t0, n)[i] == sine(0.0)
  {
  }
}
