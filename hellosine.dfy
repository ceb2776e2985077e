/** HelloSine.cpp: one sine callback over the globals g_t and g_freq, and a main that
    asks for an integer frequency when run without arguments. */
module HelloSine {
  import opened Audio
  import opened Wave
  import opened Prompt

  /** The program's globals: the sample number t (g_t) and the frequency (g_freq). */
  class Program {
    var t: real
    var freq: real

    /** Process start (g_t = 0) followed by main storing the frequency it read. */
    constructor (freq: real)
      ensures t == 0.0 && this.freq == freq
    {
      t := 0.0;
      this.freq := freq;
    }

    /** callmeBasic: frame i gets sin(2 pi freq (t0 + i) / 44100) on both channels and
        the sample number advances by numFrames. */
    method Basic(buf: array<real>, numFrames: nat, sine: real -> real) returns (status: int)
      requires Channels * numFrames <= buf.Length
      modifies this`t, buf
      ensures status == 0
      ensures buf[..] == Filled(old(buf[..]), SineSamples(sine, freq, old(t), numFrames))
      ensures t == old(t) + numFrames as real
    {
      ghost var t0 := t;
      ghost var samples := SineSamples(sine, freq, t0, numFrames);
      for i := 0 to numFrames
        invariant t == t0 + i as real
        invariant buf[..] == Filled(old(buf[..]), samples[..i])
      {
        ghost var cur := buf[..];
        var v := sine(2.0 * Pie * freq * t / SampleRate);
        assert v == SineSample(sine, freq, t);
        assert SineSample(sine, freq, t) == samples[i];
        PutFrame(buf, i, v);
        Appended(old(buf[..]), samples, i, cur, buf[..]);
        t := t + 1.0;
      }
      assert samples[..numFrames] == samples;
      return 0;
    }
  }

  /** The frequency prompt's bounds: 20 .. 20000 Hz. */
  const MinFreq: int := 20
  const MaxFreq: int := 20000

  /** How main ends: the stream plays a sine at an integer frequency read from the line
      at index answeredAt, or no line of the input was accepted (main would still be
      prompting), or main stops without playing. */
  datatype Run =
    | Play(freq: int, answeredAt: nat)
    | Prompting
    | Stop(status: Status)

  /** main: no output device exits with status 1; any argument makes main return 0 with
      no stream opened; with no argument it reads the frequency with getInteger and opens
      callmeBasic. lines are the console lines main would read. */
  method Launch(devices: int, argc: nat, lines: seq<Line<int>>) returns (r: Run)
    ensures devices < 1 <==> r == Stop(Exited(1))
    ensures devices >= 1 && argc != 1 <==> r == Stop(Returned(0))
    ensures r.Play? ==> devices >= 1 && argc == 1
    ensures r.Play? ==> MinFreq <= r.freq <= MaxFreq
    ensures r.Play? ==> r.answeredAt < |lines| && lines[r.answeredAt] == Line(r.freq, true)
    ensures r.Play? ==> forall k :: 0 <= k < r.answeredAt ==> !AcceptsInteger(lines[k], MinFreq, MaxFreq)
    ensures devices >= 1 && argc == 1 ==>
      (r.Prompting? <==> forall k :: 0 <= k < |lines| ==> !AcceptsInteger(lines[k], MinFreq, MaxFreq))
  {
    if devices < 1 {
      return Stop(Exited(1));
    }
    if argc == 1 {
      var a := GetInteger(lines, MinFreq, MaxFreq);
      if a.Accepted? {
        return Play(a.value, a.at);
      }
      return Prompting;
    }
    return Stop(Returned(0));
  }
}
