/** Waveforms.cpp: five audio callbacks (sine, saw, pulse, noise, impulse) over the
    process-wide globals g_t, g_freq and g_width, and main's choice of callback from argv. */
module Waveforms {
  import opened Audio
  import opened Wave

  /** The program's globals. Every callback fills an interleaved buffer of numFrames
      frames and advances the sample number t (g_t); freq (g_freq) and width (g_width)
      are only read. */
  class Generator {
    var t: real
    var freq: real
    var width: real

    /** Process start (g_t = 0) followed by main storing the frequency and width it
        obtained; a width main never sets keeps the global's initial 0.0. */
    constructor (freq: real, width: real)
      ensures t == 0.0 && this.freq == freq && this.width == width
    {
      t := 0.0;
      this.freq := freq;
      this.width := width;
    }

    /** The phase invariant of the saw, pulse and impulse callbacks. */
    ghost predicate PhaseOk()
      reads this
    {
      freq > 0.0 && InPhase(t, Period(freq))
    }

    /** callmeSine: frame i gets sin(2 pi freq (t0 + i) / 44100) on both channels;
        the sample number advances by numFrames and is never wrapped. */
    method Sine(buf: array<real>, numFrames: nat, sine: real -> real) returns (status: int)
      requires Channels * numFrames <= buf.Length
      modifies this`t, buf
      ensures status == 0
      ensures buf[..] == Filled(old(buf[..]), SineSamples(sine, freq, old(t), numFrames))
      ensures t == old(t) + numFrames as real
    {
      ghost var t0 := t;
      ghost var samples := SineSamples(sine, freq, t0, numFrames);
      for i := 0 to numFrames
        invariant t == t0 + i as real
        invariant buf[..] == Filled(old(buf[..]), samples[..i])
      {
        ghost var cur := buf[..];
        var v := sine(2.0 * Pie * freq * t / SampleRate);
        assert v == SineSample(sine, freq, t);
        assert SineSample(sine, freq, t) == samples[i];
        PutFrame(buf, i, v);
        Appended(old(buf[..]), samples, i, cur, buf[..]);
        t := t + 1.0;
      }
      assert samples[..numFrames] == samples;
      return 0;
    }

    /** callmeSaw: each frame wraps the phase, computes the ramp value and, when it lies
        in [-1, 1], writes it to both channels; otherwise the process exits with status 1
        at that frame. Inside the phase invariant and with a width in [0, 1) it never
        exits and keeps the invariant. */
    method Saw(buf: array<real>, numFrames: nat) returns (status: Status)
      requires freq > 0.0
      requires Channels * numFrames <= buf.Length
      modifies this`t, buf
      ensures buf[..] == Filled(old(buf[..]), SawSamples(old(t), Period(freq), width, numFrames))
      ensures var m := FirstSpike(old(t), Period(freq), width, numFrames);
        && status == (if m == numFrames then Returned(0) else Exited(1))
        && t == (if m == numFrames then At(old(t), Period(freq), numFrames)
                 else Wrap(At(old(t), Period(freq), m), Period(freq)))
      ensures old(PhaseOk()) && 0.0 <= width < 1.0 ==> status == Returned(0) && PhaseOk()
    {
      var curS := Finite(-1.0);
      var prd := Period(freq);
      ghost var t0 := t;
      if PhaseOk() && 0.0 <= width < 1.0 {
        SawNeverSpikes(t0, prd, width, numFrames);
        PhaseInRange(t0, prd, numFrames);
      }
      ghost var written: seq<real> := [];
      for i := 0 to numFrames
        invariant t == At(t0, prd, i)
        invariant |written| == i
        invariant SawWritten(written, t0, prd, width)
        invariant buf[..] == Filled(old(buf[..]), written)
      {
        AtNext(t0, prd, i);
        t := Wrap(t, prd);
        curS := SawSample(t, prd, width);
        if Audible(curS) {
          ghost var cur := buf[..];
          PutFrame(buf, i, curS.x);
          FilledAppend(old(buf[..]), written, curS.x, cur, buf[..]);
          SawWrittenAppend(written, t0, prd, width);
          written := written + [curS.x];
        } else {
          SawSamplesAre(written, t0, prd, width, numFrames);
          return Exited(1);
        }
        t := t + 1.0;
      }
      SawSamplesAre(written, t0, prd, width, numFrames);
      return Returned(0);
    }

    /** callmePulse: each frame wraps the phase and writes 1.0 when it is at most
        width * 44100 / freq, 0.0 otherwise, to both channels. */
    method Pulse(buf: array<real>, numFrames: nat) returns (status: int)
      requires freq > 0.0
      requires Channels * numFrames <= buf.Length
      modifies this`t, buf
      ensures status == 0
      ensures buf[..] == Filled(old(buf[..]),
        PulseSamples(old(t), Period(freq), Level(freq, width), numFrames))
      ensures t == At(old(t), Period(freq), numFrames)
      ensures old(PhaseOk()) ==> PhaseOk()
    {
      var prd := Period(freq);
      ghost var t0 := t;
      ghost var samples := PulseSamples(t0, prd, Level(freq, width), numFrames);
      for i := 0 to numFrames
        invariant t == At(t0, prd, i)
        invariant buf[..] == Filled(old(buf[..]), samples[..i])
      {
        PulseStep(t0, prd, Level(freq, width), numFrames, i);
        t := Wrap(t, prd);
        var s := PulseSample(t, Level(freq, width));
        ghost var cur := buf[..];
        PutFrame(buf, i, s);
        Appended(old(buf[..]), samples, i, cur, buf[..]);
        t := t + 1.0;
      }
      assert samples[..numFrames] == samples;
      if old(PhaseOk()) {
        PhaseInRange(t0, prd, numFrames);
      }
      return 0;
    }

    /** callmeNoise: frame i gets (draws[i] % 128 - 64) / 64 on both channels, where
        draws are the values rand() returned; the sample number is left alone. */
    method Noise(buf: array<real>, numFrames: nat, draws: seq<nat>) returns (status: int)
      requires |draws| == numFrames
      requires Channels * numFrames <= buf.Length
      modifies buf
      ensures status == 0
      ensures buf[..] == Filled(old(buf[..]), NoiseSamples(draws))
      ensures unchanged(this)
    {
      ghost var samples := NoiseSamples(draws);
      for i := 0 to numFrames
        invariant buf[..] == Filled(old(buf[..]), samples[..i])
      {
        var r: int := draws[i];
        ghost var cur := buf[..];
        PutFrame(buf, i, (r % 128 - 64) as real / 64.0);
        Appended(old(buf[..]), samples, i, cur, buf[..]);
      }
      assert samples[..numFrames] == samples;
      return 0;
    }

    /** callmeImpulse: each frame recomputes the period; when the phase has passed it
        the frame gets 1.0 and the phase drops by the truncated period, otherwise 0.0. */
    method Impulse(buf: array<real>, numFrames: nat) returns (status: int)
      requires freq > 0.0
      requires Channels * numFrames <= buf.Length
      modifies this`t, buf
      ensures status == 0
      ensures buf[..] == Filled(old(buf[..]), ImpulseSamples(old(t), Period(freq), numFrames))
      ensures t == At(old(t), Period(freq), numFrames)
      ensures old(PhaseOk()) ==> PhaseOk()
    {
      ghost var t0 := t;
      ghost var period := Period(freq);
      ghost var samples := ImpulseSamples(t0, period, numFrames);
      for i := 0 to numFrames
        invariant t == At(t0, period, i)
        invariant buf[..] == Filled(old(buf[..]), samples[..i])
      {
        var prd := Period(freq);
        AtNext(t0, period, i);
        assert samples[i] == ImpulseSample(t, prd);
        var s: real;
        if t > prd {
          s := 1.0;
          t := t - prd.Floor as real;
        } else {
          s := 0.0;
        }
        ghost var cur := buf[..];
        PutFrame(buf, i, s);
        Appended(old(buf[..]), samples, i, cur, buf[..]);
        t := t + 1.0;
      }
      assert samples[..numFrames] == samples;
      if old(PhaseOk()) {
        PhaseInRange(t0, period, numFrames);
      }
      return 0;
    }
  }

  // ---------------------------------------------------------------------------
  // main: which callback opens, and where g_freq and g_width come from.

  /** The five callbacks main can hand to openStream. */
  datatype Callback = SineWave | SawWave | PulseWave | NoiseWave | ImpulseWave

  /** Where main takes a global from: never set (the global keeps 0.0), a getDouble
      prompt with its bounds, or atof of argv[index]. */
  datatype Source = Unset | Ask(min: real, max: real) | Argument(index: nat)

  /** What main does: open a stream on a callback, or print "Bad input format." and
      return 1 after the prompts it has already shown, or exit(1) for want of a device. */
  datatype Plan =
    | Open(callback: Callback, freq: Source, width: Source)
    | BadFormat(freq: Source, width: Source)
    | NoSpeakers

  /** The frequency prompt: 0.1 .. 20000 Hz. */
  const FreqPrompt: Source := Ask(0.1, 20000.0)

  /** The width prompt: 0.0 .. 1.0. */
  const WidthPrompt: Source := Ask(0.0, 1.0)

  /** main's exit status once the plan has run (driver errors aside; a saw that spikes
      exits with 1 from its callback, see `Generator.Saw`). */
  function ExitStatus(p: Plan): int
  {
    if p.Open? then 0 else 1
  }

  /** The callback each kind on the command line names. */
  function Named(kind: string): Callback
  {
    if kind == "--sine" then SineWave
    else if kind == "--saw" then SawWave
    else if kind == "--pulse" then PulseWave
    else if kind == "--impulse" then ImpulseWave
    else NoiseWave
  }

  /** main's selection as written; argv includes the program name, so argc == |argv|. */
  function Dispatch(devices: int, argv: seq<string>): (p: Plan)
    ensures devices < 1 <==> p == NoSpeakers
    ensures devices >= 1 && |argv| == 1 ==> p == Open(SineWave, FreqPrompt, Unset)
    ensures devices >= 1 && (|argv| == 0 || |argv| > 4) ==> p == BadFormat(Unset, Unset)
    ensures p.Open? && p.callback == NoiseWave ==> |argv| == 2 && p.freq == Unset && p.width == Unset
    ensures p.Open? && |argv| == 4 ==> p.callback == PulseWave || p.callback == SawWave
    ensures devices >= 1 && |argv| == 2 && argv[1] == "--noise" ==> p == Open(NoiseWave, Unset, Unset)
    ensures devices >= 1 && |argv| == 2 && argv[1] in {"--sine", "--impulse", "--pulse", "--saw"} ==>
      p == Open(Named(argv[1]), FreqPrompt, if argv[1] in {"--pulse", "--saw"} then WidthPrompt else Unset)
    ensures devices >= 1 && |argv| == 3 && argv[1] in {"--sine", "--pulse"} ==>
      p == Open(Named(argv[1]), Argument(2), if argv[1] == "--pulse" then WidthPrompt else Unset)
    ensures devices >= 1 && |argv| == 4 && argv[1] in {"--pulse", "--saw"} ==>
      p == Open(Named(argv[1]), Argument(2), Argument(3))
    ensures devices >= 1 && |argv| == 2 && argv[1] !in {"--noise", "--sine", "--impulse", "--pulse", "--saw"}
      ==> p == BadFormat(FreqPrompt, WidthPrompt)
    ensures devices >= 1 && |argv| == 3 && argv[1] !in {"--sine", "--impulse", "--pulse", "--saw"}
      ==> p == BadFormat(Argument(2), WidthPrompt)
    ensures devices >= 1 && |argv| == 4 && argv[1] !in {"--pulse", "--saw"} ==> p == BadFormat(Argument(2), Argument(3))
    ensures p.Open? && p.freq.Argument? ==> p.freq.index == 2 < |argv|
    ensures p.Open? && p.width.Argument? ==> p.width.index == 3 < |argv|
  {
    if devices < 1 then NoSpeakers
    else if |argv| == 1 then Open(SineWave, FreqPrompt, Unset)
    else if |argv| == 2 then
      if argv[1] == "--noise" then Open(NoiseWave, Unset, Unset)
      else if argv[1] == "--sine" then Open(SineWave, FreqPrompt, Unset)
      else if argv[1] == "--impulse" then Open(ImpulseWave, FreqPrompt, Unset)
      else if argv[1] == "--pulse" then Open(PulseWave, FreqPrompt, WidthPrompt)
      else if argv[1] == "--saw" then Open(SawWave, FreqPrompt, WidthPrompt)
      else BadFormat(FreqPrompt, WidthPrompt)
    else if |argv| == 3 then
      if argv[1] == "--sine" then Open(SineWave, Argument(2), Unset)
      else if argv[1] == "--impulse" then Open(SawWave, Argument(2), Unset)
      else if argv[1] == "--pulse" then Open(PulseWave, Argument(2), WidthPrompt)
      else if argv[1] == "--saw" then Open(ImpulseWave, Argument(2), WidthPrompt)
      else BadFormat(Argument(2), WidthPrompt)
    else if |argv| == 4 then
      if argv[1] == "--pulse" then Open(PulseWave, Argument(2), Argument(3))
      else if argv[1] == "--saw" then Open(SawWave, Argument(2), Argument(3))
      else BadFormat(Argument(2), Argument(3))
    else BadFormat(Unset, Unset)
  }

  /** As written, a frequency on the command line swaps two waveforms: `--saw F` plays the
      impulse (after asking for a width it never uses) and `--impulse F` plays the saw
      with g_width never set. */
  lemma SwappedAtThreeArgs(devices: int, prog: string, f: string)
    requires devices >= 1
    ensures Dispatch(devices, [prog, "--saw", f]) == Open(ImpulseWave, Argument(2), WidthPrompt)
    ensures Dispatch(devices, [prog, "--impulse", f]) == Open(SawWave, Argument(2), Unset)
    ensures Dispatch(devices, [prog, "--saw"]).callback == SawWave
    ensures Dispatch(devices, [prog, "--impulse"]).callback == ImpulseWave
  {
  }

  /** main's selection with the two three-argument branches routed as the one-argument
      branches route them: `--impulse F` opens the impulse, `--saw F` the saw. */
  function DispatchIntended(devices: int, argv: seq<string>): (p: Plan)
    ensures |argv| != 3 ==> p == Dispatch(devices, argv)
  {
    if devices >= 1 && |argv| == 3 && argv[1] == "--impulse" then Open(ImpulseWave, Argument(2), Unset)
    else if devices >= 1 && |argv| == 3 && argv[1] == "--saw" then Open(SawWave, Argument(2), WidthPrompt)
    else Dispatch(devices, argv)
  }

  /** With the intended routing the waveform never depends on whether the frequency came
      from the prompt or from argv, and a width is obtained exactly for the saw and the
      pulse, the two callbacks that read g_width. */
  lemma IntendedConsistent(devices: int, argv: seq<string>)
    requires |argv| == 3
    ensures DispatchIntended(devices, argv).Open? ==>
      DispatchIntended(devices, argv[..2]).Open? &&
      DispatchIntended(devices, argv).callback == DispatchIntended(devices, argv[..2]).callback
    ensures DispatchIntended(devices, argv).Open? ==>
      (DispatchIntended(devices, argv).width != Unset <==>
       DispatchIntended(devices, argv).callback in {SawWave, PulseWave})
  {
    assert argv[..2][1] == argv[1];
  }

  /** Every way main opens a stream obtains a width exactly for the callbacks that read
      it, except the two swapped three-argument branches. */
  lemma WidthObtainedWhenRead(devices: int, argv: seq<string>)
    requires Dispatch(devices, argv).Open?
    requires !(|argv| == 3 && argv[1] in {"--saw", "--impulse"})
    ensures Dispatch(devices, argv).width != Unset <==>
      Dispatch(devices, argv).callback in {SawWave, PulseWave}
  {
  }

  /** A frequency the prompt accepts gives a period of at least one frame, so a stream
      started at g_t = 0 is inside the phase invariant, and a saw with a width in [0, 1)
      never reaches its amplitude-spike exit. */
  lemma PromptedSawNeverSpikes(freq: real, width: real, n: nat)
    requires 0.1 <= freq <= 20000.0 && 0.0 <= width < 1.0
    ensures InPhase(0.0, Period(freq))
    ensures FirstSpike(0.0, Period(freq), width, n) == n
  {
    var prd := Period(freq);
    PeriodAtLeastOne(freq);
    SawNeverSpikes(0.0, prd, width, n);
  }
}
