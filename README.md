# Waveforms, HelloSine and log2 in Dafny

A model of three small real-time audio programs. Each one opens a stereo output stream
at 44100 frames per second, and its audio callback fills every interleaved buffer the
driver hands it:

- **Waveforms** (`Waveforms/Waveforms.cpp`) plays a sine, saw, pulse, impulse or noise
  wave. The frequency and width come from the command line or from console prompts.
- **HelloSine** (`HelloSine.cpp`) plays a sine at an integer frequency it asks for.
- **log2** (`log2.cpp`) opens a stream on a callback that writes nothing.

The callbacks share three pieces of process-wide state: the sample number `g_t`, the
frequency `g_freq` and the width `g_width`. Each program's state is a Dafny class with
those fields, and each callback is a method of that class. A callback fills an `array`
exactly as the source does: it writes channel 0 of frame `i`, then copies it into the
other channel. Each callback is proved against a specification function of its inputs
and the old state:

- `Filled(before, samples)` is the buffer after frames `0 .. |samples|-1` are written.
- `At(t0, prd, k)` is the phase at the top of frame `k`.
- `FirstSpike` is the saw frame that fails the amplitude check.

What the programs promise is then proved about those functions.

Modules:

- `Audio`: the constants, the interleaved buffer and the one-frame write.
- `Wave`: the sample rules of the five waves and the phase recurrence that the saw,
  pulse and impulse share. It also holds the theorems about them: the phase stays in
  range, the wrap schedule, the pulse and impulse levels, the saw's range and its exit,
  and the noise grid. It also shows, for the sine, saw, pulse and impulse, that a stream
  does not depend on how the driver cuts it into buffers.
- `Prompt`: `getDouble` and `getInteger`. Both are a retry loop over console lines with
  the acceptance rule "at least min, and at most max unless max <= min".
- `Waveforms`, `HelloSine`, `Log2`: the class of each program, its callbacks, and its
  `main`.

The platform `sin` is a parameter `sine: real -> real`. The values `rand()` returns are a
`seq<nat>` parameter. Doubles are modelled as `real`s, except for one case. The saw
divides by `prd * width` and by `prd * (1 - width)`, and those divisions can produce an
infinity or a NaN. `Wave.Double` keeps that case, because it decides whether the saw's
range check passes.

Three behaviours of the code are easy to misread:

- **The wrap test is `g_t > prd`.** So the wrapped phase lies in `[0, prd]`. It is 0
  only at a stream's first frame, and it reaches `prd` itself when the period is a whole
  number (`Wave.PhaseInRange`). The first cycle after a stream starts lasts
  `floor(prd) + 1` frames; every later cycle lasts `floor(prd)` frames
  (`Wave.WrapSchedule`).
- **A pulse at 100 Hz with width 0.5** is high for frames 0 .. 220 of its first 442
  frames. After that it is high for the first 220 of every 441 frames
  (`Wave.PulseAt100Hz`).
- **The saw takes the widths 0 and 1 as they come.** The width prompt accepts both.
  With width 0 and a frequency of at most 44100 Hz (every prompted frequency) the saw
  never leaves `[-1, 1]`. With width 1, the frame whose wrapped
  phase equals the period divides by zero, and the process exits with status 1
  (`Wave.FullWidthSpike`, `Wave.FullWidthSawExits`).

## Model

| member | source | states |
|---|---|---|
| Audio.Filled | Waveforms/Waveforms.cpp:112-124 | the buffer after a fill loop has written frames 0 .. n-1: every slot of frame i holds the i-th sample, the slots past frame n-1 are untouched, and the length is unchanged (slot by slot in `Audio.FilledSlots`) |
| Audio.FilledSlots | Waveforms/Waveforms.cpp:112-124 | after a callback writes n frames, slot k of the buffer holds sample k / 2 for k < 2n, and the driver's old contents elsewhere |
| Audio.ChannelsAgree | Waveforms/Waveforms.cpp:117-119 | both channels of every written frame carry the same sample, which is that frame's sample |
| Audio.PutFrame | Waveforms/Waveforms.cpp:115-119 | writing frame i sets its two slots to the value and leaves every other slot unchanged |
| Wave.SineSample | Waveforms/Waveforms.cpp:116 | the sine sample sin(2 pi freq t / 44100) at sample number t, with `sin` a parameter |
| Wave.SineSplit | Waveforms/Waveforms.cpp:112-123 | two sine callbacks of a and b frames write what one callback of a + b frames writes |
| Wave.Period | Waveforms/Waveforms.cpp:142 | the period 44100 / freq of a positive frequency is positive |
| Wave.PeriodAtLeastOne | Waveforms/Waveforms.cpp:306 | a frequency of at most 44100 Hz, in particular every frequency the prompt accepts, has a period of at least one frame |
| Wave.Wrap | Waveforms/Waveforms.cpp:146 | the wrap at the top of a frame: a phase above the period loses the period truncated to an integer, once; any other phase is kept (also :184 and :239-241; its range is `Wave.WrapInPeriod`) |
| Wave.At | Waveforms/Waveforms.cpp:144-165 | the recurrence of `g_t`: the phase at the top of frame k is the entry phase wrapped and advanced by 1 k times (the saw, pulse and impulse loops alike; its properties are `Wave.AtSplit`, `Wave.PhaseInRange` and `Wave.WrapSchedule`) |
| Wave.WrapInPeriod | Waveforms/Waveforms.cpp:184-196 | one frame keeps the phase invariant: after the wrap test the phase is in [0, prd], and after the increment it is in [0, prd + 1] |
| Wave.PhaseInRange | Waveforms/Waveforms.cpp:144-165 | from a phase inside the invariant, the phase at every later frame stays inside it, and every wrapped phase lies in [0, prd] |
| Wave.AtSplit | Waveforms/Waveforms.cpp:182-197 | running a frames and then b frames reaches the phase that a + b frames reach, so g_t carries all the state between callbacks |
| Wave.RisesToWrap | Waveforms/Waveforms.cpp:182-197 | before the first wrap the phase counts up by one per frame; it first passes the period at frame FirstWrap, which is at most floor(prd) + 1 |
| Wave.FireCycle | Waveforms/Waveforms.cpp:184 | after a wrap the phase drops by floor(prd), then passes the period again exactly floor(prd) frames later |
| Wave.Periodic | Waveforms/Waveforms.cpp:182-197 | from a frame that wraps, the phase sequence repeats every floor(prd) frames |
| Wave.WrapSchedule | Waveforms/Waveforms.cpp:237-250 | from the first wrap on, the phase passes the period exactly at frames FirstWrap + q * floor(prd) and at no other frame |
| Wave.WrappedPhase | Waveforms/Waveforms.cpp:184-186 | from the first wrap on, frame r of every cycle sees the same wrapped phase, which rises by one per frame |
| Wave.Level | Waveforms/Waveforms.cpp:186 | the pulse threshold width * 44100 / freq, computed as the source writes it (equal to width * period by `Wave.PulseLevelIsShare`) |
| Wave.PulseSample | Waveforms/Waveforms.cpp:186-190 | the pulse sample of a wrapped phase: 1.0 when it is at most the threshold, 0.0 otherwise |
| Wave.PulseLevels | Waveforms/Waveforms.cpp:186-190 | a pulse sample is 0.0 or 1.0, and it is 1.0 exactly when the wrapped phase is at most the level |
| Wave.PulseSchedule | Waveforms/Waveforms.cpp:184-190 | frame r of every cycle after the first wrap is high exactly when its wrapped phase is at most the level |
| Wave.PulseAt100Hz | Waveforms/Waveforms.cpp:179-196 | at 100 Hz and width 0.5 the period is 441 and the level 220.5; frames 0..220 are high and 221..441 low, then 220 of every 441 frames are high |
| Wave.PulseLevelIsShare | Waveforms/Waveforms.cpp:186 | the threshold width * 44100 / freq is the width's share of the period |
| Wave.PulseSplit | Waveforms/Waveforms.cpp:171-200 | two pulse callbacks of a and b frames write what one callback of a + b frames writes |
| Wave.ImpulseSample | Waveforms/Waveforms.cpp:239-243 | the impulse sample of an unwrapped phase: 1.0 when it is above the period (the frame that wraps), 0.0 otherwise |
| Wave.ImpulseEvery | Waveforms/Waveforms.cpp:236-243 | an impulse sample is 0.0 or 1.0; frames before the first wrap are 0.0, and from then on 1.0 falls exactly every floor(prd) frames |
| Wave.ImpulseSplit | Waveforms/Waveforms.cpp:225-254 | two impulse callbacks of a and b frames write what one callback of a + b frames writes |
| Wave.SawSample | Waveforms/Waveforms.cpp:148-151 | the saw value curS of a wrapped phase: the rising ramp -1 + 2t/(prd w) while t < w prd, else the falling ramp 1 - 2(t - w prd)/(prd (1 - w)); a division by zero gives an infinity or NaN |
| Wave.Audible | Waveforms/Waveforms.cpp:153 | the range check: the value is finite and lies in [-1, 1]; an infinity or NaN fails it |
| Wave.SawRising | Waveforms/Waveforms.cpp:148-149 | on the rising ramp the saw is -1 + 2t / (prd w), which lies in [-1, 1) |
| Wave.SawFalling | Waveforms/Waveforms.cpp:150-151 | on the falling ramp, with a width below 1, the saw is 1 - 2(t - w prd) / (prd (1 - w)), which lies in [-1, 1] |
| Wave.SawInRange | Waveforms/Waveforms.cpp:147-153 | for a wrapped phase in [0, prd] and a width in [0, 1], the saw passes the range check, except at phase prd with width 1; the ramp it follows is decided by t < w * prd |
| Wave.SawShape | Waveforms/Waveforms.cpp:147-152 | for a width in (0, 1) the saw starts each period at -1, peaks at 1 at w * prd, and is back at -1 at prd |
| Wave.FullWidthSpike | Waveforms/Waveforms.cpp:150-161 | with width 1 and phase equal to the period, the falling ramp divides by zero and the range check fails |
| Wave.FirstSpike | Waveforms/Waveforms.cpp:144-162 | the saw frame that fails the range check first: every earlier frame passes, and the frame itself fails unless it is the end of the buffer |
| Wave.SawSamplesAre | Waveforms/Waveforms.cpp:144-162 | frames that all passed the check, followed by a failing frame or by the end of the buffer, are exactly the frames the saw writes |
| Wave.SawSplit | Waveforms/Waveforms.cpp:133-168 | a saw callback of a frames that did not exit, followed by one of b frames, writes what one callback of a + b frames writes: the same frames, up to the same exit |
| Wave.SawNeverSpikes | Waveforms/Waveforms.cpp:153-162 | inside the phase invariant and with a width in [0, 1), no frame ever takes the exit(1) |
| Wave.FullWidthSawExits | Waveforms/Waveforms.cpp:144-162 | with width 1, a whole-number period P and a stream start, the saw writes frames 0 .. P-1 and exits at frame P |
| Wave.NoiseSample | Waveforms/Waveforms.cpp:215 | a noise sample lies in [-1, 63/64] and is a multiple of 1/64 |
| Wave.NoiseCovers | Waveforms/Waveforms.cpp:215 | every multiple k / 64 with -64 <= k <= 63 is the sample of some draw |
| Prompt.InBounds | Waveforms/Waveforms.cpp:70-78 | the range test of getDouble and getInteger: at least min, and at most max unless max <= min (read both ways in `Prompt.BoundsRule`) |
| Prompt.AcceptsDouble | Waveforms/Waveforms.cpp:70-78 | getDouble accepts a line when its value passes the range test and the stream read it cleanly to its end |
| Prompt.AcceptsInteger | HelloSine.cpp:50-58 | getInteger accepts a line by the same rule on integers |
| Prompt.BoundsRule | log2.cpp:70-78 | a value is accepted exactly when it is at least min and, when max > min, at most max; when max <= min only the lower bound applies |
| Prompt.FirstAccepted | Waveforms/Waveforms.cpp:66-81 | the retry loop ends with the first line that the test accepts; every earlier line was rejected; it ends without an answer exactly when every line was rejected |
| Prompt.GetDouble | Waveforms/Waveforms.cpp:62-83 | getDouble returns the first clean line whose number lies within the bounds, and all earlier lines were rejected |
| Prompt.GetInteger | HelloSine.cpp:42-63 | getInteger returns the first clean line whose integer lies within the bounds, and all earlier lines were rejected |
| Waveforms.Generator.constructor | Waveforms/Waveforms.cpp:39-43 | the process starts with g_t = 0, and main stores the frequency and the width |
| Waveforms.Generator.Sine | Waveforms/Waveforms.cpp:103-126 | callmeSine writes sin(2 pi freq (t0 + i) / 44100) to both channels of frame i, returns 0, and advances g_t by numFrames |
| Waveforms.Generator.Saw | Waveforms/Waveforms.cpp:132-168 | callmeSaw writes the saw frames before the first failing one and then exits with status 1, or returns 0 if no frame fails; g_t follows the phase recurrence; inside the phase invariant with a width in [0, 1) it returns 0 and keeps the invariant |
| Waveforms.Generator.Pulse | Waveforms/Waveforms.cpp:171-200 | callmePulse writes the pulse samples of the phase recurrence to both channels, returns 0, leaves g_t at the phase after numFrames frames, and keeps the phase invariant |
| Waveforms.Generator.Noise | Waveforms/Waveforms.cpp:202-223 | callmeNoise writes (draw % 128 - 64) / 64 to both channels of each frame, returns 0, and changes no global |
| Waveforms.Generator.Impulse | Waveforms/Waveforms.cpp:225-254 | callmeImpulse writes 1.0 on each frame whose phase has passed the period and 0.0 otherwise, returns 0, and keeps the phase invariant |
| Waveforms.ExitStatus | Waveforms/Waveforms.cpp:336-412 | main returns 0 after playing an opened stream and 1 on every "Bad input format" path (a saw that spikes exits with 1 from its callback instead, Waveforms.cpp:161) |
| Waveforms.Dispatch | Waveforms/Waveforms.cpp:276-384 | main's choice of callback and of where g_freq and g_width come from: no device exits with 1; no argument opens the sine after the frequency prompt; the kind alone opens its own callback after the frequency prompt, with a width prompt for `--pulse` and `--saw` and no prompt at all for `--noise`; a kind and a frequency open `--sine` and `--pulse` with the frequency from argv[2] (the pulse still prompts for a width); a kind, a frequency and a width open `--pulse` or `--saw` from argv[2] and argv[3] with no prompt; noise is opened in no other way; a kind that argc does not accept gives "Bad input format" after exactly the prompts already shown, and so do argc 0 and argc above 4; argv indexes are in range |
| Waveforms.SwappedAtThreeArgs | Waveforms/Waveforms.cpp:344-365 | as written, `--saw F` opens the impulse after a width prompt and `--impulse F` opens the saw with g_width unset, while with one argument each kind opens its own callback |
| Waveforms.DispatchIntended | Waveforms/Waveforms.cpp:344-365 | the corrected selection agrees with main for every argc except 3 |
| Waveforms.IntendedConsistent | Waveforms/Waveforms.cpp:304-365 | with the correction, adding the frequency argument never changes the waveform, and a width is obtained exactly for the saw and the pulse |
| Waveforms.WidthObtainedWhenRead | Waveforms/Waveforms.cpp:304-384 | except in the two swapped branches, main obtains a width exactly when it opens a callback that reads g_width |
| Waveforms.PromptedSawNeverSpikes | Waveforms/Waveforms.cpp:144-162 | a frequency the prompt accepts puts a stream started at g_t = 0 inside the phase invariant, and then a saw with a width in [0, 1) never exits |
| HelloSine.Program.constructor | HelloSine.cpp:28-31 | the process starts with g_t = 0, and main stores the frequency |
| HelloSine.Program.Basic | HelloSine.cpp:73-97 | callmeBasic writes sin(2 pi freq (t0 + i) / 44100) to both channels of frame i, returns 0, and advances g_t by numFrames |
| HelloSine.Launch | HelloSine.cpp:106-216 | no device exits with 1; any argument returns 0 without a stream; with no argument the frequency played is the first clean integer in 20..20000, and every earlier line was rejected |
| Log2.Program.constructor | log2.cpp:38-41 | the process starts with g_t = 0 and g_freq = 0 |
| Log2.Program.EditFile | log2.cpp:97-104 | callmeEditFile returns 0 and changes neither the buffer nor any global |
| Log2.Program.Sine | log2.cpp:113-136 | callmeSine writes sin(2 pi freq (t0 + i) / 44100) to both channels of frame i, returns 0, and advances g_t by numFrames |
| Log2.Launch | log2.cpp:159-194 | main opens the callmeEditFile stream exactly when a device exists and there is no argument; otherwise it exits with 1 |
| Log2.UnsetFrequencyIsSilent | log2.cpp:125 | with g_freq never set, every frame of callmeSine is sin(0) |

`getDouble` in `log2.cpp:62-83` is the same code as `getDouble` in
`Waveforms/Waveforms.cpp:62-83`. `Prompt.GetDouble` models both.

## Left out

- The RtAudio stream lifecycle is left out: opening, starting, stopping and closing the stream, the latency report, and waiting for Enter. A driver error after the callback is chosen is not modelled: an `openStream` error exits with 1 where `main` catches it (Waveforms with no argument, HelloSine, log2) and is uncaught in Waveforms' branches for argc 2 to 4; a `startStream` or `stopStream` error returns 1 in Waveforms and log2 and 0 in HelloSine. `main`'s outcome is the plan it chooses.
- Console output is left out: `cerr << "."`, the prompts, "Bad input." and the warnings.
- Console parsing is modelled by its result. `Prompt.Line` gives the number `stream >> x >> ws` read and whether the stream was good and at its end. How `istringstream` parses text is not modelled.
- The `getDouble` and `getInteger` loops never end on input that is never accepted. The model takes a finite list of lines and reports that no line was accepted.
- `atof` of an argv entry is left abstract. `Waveforms.Source.Argument` names the argv index that `g_freq` or `g_width` comes from.
- IEEE double rounding is left out. Phases and samples are exact `real`s. Only the infinity or NaN of a division by zero is kept, in `Wave.Double`.
- `sin` is a parameter, so its numerics are not modelled. `rand()` is a sequence of draws, so its distribution and seeding are not modelled.
- The conversion `(int) prd` is modelled as `Floor`. Below about 2e-5 Hz the period overflows `int`; the prompt's minimum of 0.1 Hz rules this out, and the model does not cover it.
- `unsigned int numFrames` and the `int i` loop index are unbounded naturals.
- `Waveforms.Generator.Saw`, `Waveforms.Generator.Pulse`, `Waveforms.Generator.Impulse` require `freq > 0`, which every frequency the prompt accepts satisfies. A zero or negative frequency from `atof` is not modelled.
- Threading is left out. The driver calls the callbacks one at a time, after `main` has set the globals.
- `Log2.Program.Sine` is never opened by log2's `main`. It is modelled for completeness.

## Findings

| source | as written | input that shows it | evidently intended | confidence | as-written member | corrected member |
|---|---|---|---|---|---|---|
| Waveforms/Waveforms.cpp:349-359 | with a frequency argument, `--impulse` opens `callmeSaw` and `--saw` opens `callmeImpulse` | argv = [prog, "--saw", "440"] plays an impulse train after asking for a width it never uses; [prog, "--impulse", "440"] plays a saw with `g_width` never set | each kind opens its own callback, as it does with the kind alone and with a kind, a frequency and a width | high (not executed) | Waveforms.SwappedAtThreeArgs | Waveforms.IntendedConsistent |
