/** The per-sample rules of the five waveforms and the phase recurrence that the saw,
    pulse and impulse callbacks share. Phases and samples are `real`s standing for the
    programs' doubles; the platform `sin` is a parameter and `rand()` draws are inputs. */
module Wave {
  import opened Audio

  // ---------------------------------------------------------------------------
  // Sine: the phase is the plain sample counter and is never wrapped.

  /** The sine sample at phase t: sin(2 * pi * freq * t / 44100). */
  function SineSample(sine: real -> real, freq: real, t: real): real
  {
    sine(2.0 * Pie * freq * t / SampleRate)
  }

  /** The n samples of a sine callback entered with phase t0. */
  function SineSamples(sine: real -> real, freq: real, t0: real, n: nat): seq<real>
  {
    seq(n, i => SineSample(sine, freq, t0 + i as real))
  }

  /** Two sine callbacks of a and b frames produce what one callback of a + b frames would:
      the stream does not depend on how the driver cuts it into buffers. */
  lemma SineSplit(sine: real -> real, freq: real, t0: real, a: nat, b: nat)
    ensures SineSamples(sine, freq, t0, a + b)
         == SineSamples(sine, freq, t0, a) + SineSamples(sine, freq, t0 + a as real, b)
  {
    var whole, left, right :=
      SineSamples(sine, freq, t0, a + b), SineSamples(sine, freq, t0, a),
      SineSamples(sine, freq, t0 + a as real, b);
    forall k | a <= k < a + b
      ensures whole[k] == right[k - a]
    {
      assert t0 + k as real == (t0 + a as real) + (k - a) as real;
    }
    assert whole == left + right;
  }

  // ---------------------------------------------------------------------------
  // The phase recurrence of the saw, pulse and impulse callbacks.

  /** The period in frames, SampleRate / freq. */
  function Period(freq: real): (prd: real)
    requires freq > 0.0
    ensures prd > 0.0
  {
    SampleRate / freq
  }

  /** Every frequency up to the sample rate has a period of at least one frame. */
  lemma PeriodAtLeastOne(freq: real)
    requires 0.0 < freq <= SampleRate
    ensures Period(freq) >= 1.0
  {
    var prd := Period(freq);
    assert prd - 1.0 == (SampleRate - freq) / freq;
  }

  /** The wrap test at the top of a frame: once the phase has passed the period, subtract
      the period truncated to an integer, once. */
  function Wrap(t: real, prd: real): real
    requires prd > 0.0
  {
    if t > prd then t - prd.Floor as real else t
  }

  /** The phase at the top of frame k of a run entered with phase t0: every frame wraps
      once and then advances the phase by one sample. */
  function At(t0: real, prd: real, k: nat): real
    requires prd > 0.0
  {
    if k == 0 then t0 else Wrap(At(t0, prd, k - 1), prd) + 1.0
  }

  /** One frame of the recurrence. */
  lemma AtNext(t0: real, prd: real, i: nat)
    requires prd > 0.0
    ensures At(t0, prd, i + 1) == Wrap(At(t0, prd, i), prd) + 1.0
  {
  }

  /** The phase invariant kept between callbacks. */
  predicate InPhase(t: real, prd: real)
  {
    1.0 <= prd && 0.0 <= t <= prd + 1.0
  }

  /** One frame keeps the invariant: after the wrap test the phase lies in [0, prd],
      and after the increment it is back in [0, prd + 1]. */
  lemma WrapInPeriod(t: real, prd: real)
    requires InPhase(t, prd)
    ensures 0.0 <= Wrap(t, prd) <= prd
    ensures InPhase(Wrap(t, prd) + 1.0, prd)
  {
    var f := prd.Floor;
    assert 1 <= f && f as real <= prd < f as real + 1.0;
  }

  /** The invariant holds at the top of every frame of every run that starts inside it. */
  lemma {:induction false} PhaseInRange(t0: real, prd: real, k: nat)
    requires InPhase(t0, prd)
    ensures InPhase(At(t0, prd, k), prd)
    ensures 0.0 <= Wrap(At(t0, prd, k), prd) <= prd
  {
    if k > 0 {
      PhaseInRange(t0, prd, k - 1);
      WrapInPeriod(At(t0, prd, k - 1), prd);
    }
    WrapInPeriod(At(t0, prd, k), prd);
  }

  /** Running a frames and then b frames reaches the phase of running a + b frames:
      the phase carried in the global between callbacks is all the state there is. */
  lemma {:induction false} AtSplit(t0: real, prd: real, a: nat, b: nat)
    requires prd > 0.0
    ensures At(t0, prd, a + b) == At(At(t0, prd, a), prd, b)
  {
    if b > 0 {
      AtSplit(t0, prd, a, b - 1);
    }
  }

  /** AtSplit with the frame counted from the start of the run. */
  lemma AtShift(t0: real, prd: real, a: nat, k: nat)
    requires prd > 0.0 && a <= k
    ensures At(t0, prd, k) == At(At(t0, prd, a), prd, k - a)
  {
    AtSplit(t0, prd, a, k - a);
  }

  /** The frame at which the phase first passes the period (the first wrap, and the first
      impulse), counted from a callback entered with phase t0. */
  function FirstWrap(t0: real, prd: real): nat
    requires prd > 0.0
  {
    if t0 > prd then 0 else (prd - t0).Floor + 1
  }

  /** Before the first wrap the phase only counts up, one per frame; at the first wrap it
      has passed the period, and that happens within floor(prd) + 1 frames. */
  lemma {:induction false} RisesToWrap(t0: real, prd: real, k: nat)
    requires prd > 0.0 && 0.0 <= t0
    requires k <= FirstWrap(t0, prd)
    ensures At(t0, prd, k) == t0 + k as real
    ensures k < FirstWrap(t0, prd) ==> At(t0, prd, k) <= prd
    ensures k == FirstWrap(t0, prd) ==> At(t0, prd, k) > prd
    ensures FirstWrap(t0, prd) <= prd.Floor + 1
  {
    if k > 0 {
      RisesToWrap(t0, prd, k - 1);
    }
    if t0 <= prd {
      var g := (prd - t0).Floor;
      assert g as real <= prd - t0 < g as real + 1.0;
      assert g <= prd.Floor;
    }
  }

  /** Right after a wrap the phase drops by floor(prd) and then counts up again, passing
      the period exactly floor(prd) frames later. */
  lemma {:induction false} FireCycle(t: real, prd: real, j: nat)
    requires 1.0 <= prd < t <= prd + 1.0
    requires 1 <= j <= prd.Floor
    ensures At(t, prd, j) == t - prd.Floor as real + j as real
    ensures j < prd.Floor ==> At(t, prd, j) <= prd
  {
    var f := prd.Floor;
    assert f as real <= prd < f as real + 1.0;
    if j > 1 {
      FireCycle(t, prd, j - 1);
    }
  }

  /** From a frame that wraps, the phase sequence repeats with period floor(prd). */
  lemma {:induction false} Periodic(t: real, prd: real, q: nat, r: nat)
    requires 1.0 <= prd < t <= prd + 1.0
    ensures At(t, prd, q * prd.Floor + r) == At(t, prd, r)
  {
    if q > 0 {
      var f := prd.Floor;
      assert 1 <= f;
      assert q * f + r == f + ((q - 1) * f + r);
      FireCycle(t, prd, f);
      AtSplit(t, prd, f, (q - 1) * f + r);
      Periodic(t, prd, q - 1, r);
    }
  }

  /** The wrap schedule: a run entered inside the phase invariant first passes the period
      at frame FirstWrap(t0, prd) and from then on passes it exactly every floor(prd)
      frames. The saw and pulse wrap, and the impulse fires, at precisely these frames. */
  lemma WrapSchedule(t0: real, prd: real, q: nat, r: nat)
    requires InPhase(t0, prd) && r < prd.Floor
    ensures At(t0, prd, FirstWrap(t0, prd) + q * prd.Floor + r) > prd <==> r == 0
  {
    var first := FirstWrap(t0, prd);
    var f := prd.Floor;
    RisesToWrap(t0, prd, first);
    PhaseInRange(t0, prd, first);
    var t := At(t0, prd, first);
    AtSplit(t0, prd, first, q * f + r);
    Periodic(t, prd, q, r);
    if r > 0 {
      FireCycle(t, prd, r);
    }
  }

  /** The wrapped phase on the wrap schedule: from the first wrap on, frame r of every
      cycle of floor(prd) frames sees the same wrapped phase, which rises by one per frame. */
  lemma WrappedPhase(t0: real, prd: real, q: nat, r: nat)
    requires InPhase(t0, prd) && r < prd.Floor
    ensures Wrap(At(t0, prd, FirstWrap(t0, prd) + q * prd.Floor + r), prd)
         == t0 + FirstWrap(t0, prd) as real - prd.Floor as real + r as real
  {
    var first := FirstWrap(t0, prd);
    var f := prd.Floor;
    RisesToWrap(t0, prd, first);
    PhaseInRange(t0, prd, first);
    var t := At(t0, prd, first);
    AtSplit(t0, prd, first, q * f + r);
    Periodic(t, prd, q, r);
    if r > 0 {
      FireCycle(t, prd, r);
    }
  }

  // ---------------------------------------------------------------------------
  // Pulse: high while the wrapped phase is at most width * 44100 / freq.

  /** The pulse threshold width * 44100 / freq: the last phase of a period that is high. */
  function Level(freq: real, width: real): real
    requires freq > 0.0
  {
    width * SampleRate / freq
  }

  /** The pulse sample for a wrapped phase t. */
  function PulseSample(t: real, level: real): real
  {
    if t <= level then 1.0 else 0.0
  }

  /** The pulse sample of the frame whose phase at the top of the frame is t. */
  function PulseFrame(t: real, prd: real, level: real): real
    requires prd > 0.0
  {
    PulseSample(Wrap(t, prd), level)
  }

  /** The n samples of a pulse callback entered with phase t0. */
  function PulseSamples(t0: real, prd: real, level: real, n: nat): seq<real>
    requires prd > 0.0
  {
    seq(n, i requires 0 <= i < n => PulseFrame(At(t0, prd, i), prd, level))
  }

  /** The pulse emits only 0.0 and 1.0, and 1.0 exactly when the wrapped phase is at
      most the level. */
  lemma PulseLevels(t0: real, prd: real, level: real, n: nat, i: nat)
    requires prd > 0.0 && i < n
    ensures PulseSamples(t0, prd, level, n)[i] in {0.0, 1.0}
    ensures PulseSamples(t0, prd, level, n)[i] == 1.0 <==> Wrap(At(t0, prd, i), prd) <= level
  {
  }

  /** Frame i of a pulse run: the sample of the wrapped phase, and the phase the next
      frame starts with. */
  lemma PulseStep(t0: real, prd: real, level: real, n: nat, i: nat)
    requires prd > 0.0 && i < n
    ensures PulseSamples(t0, prd, level, n)[i] == PulseSample(Wrap(At(t0, prd, i), prd), level)
    ensures At(t0, prd, i + 1) == Wrap(At(t0, prd, i), prd) + 1.0
  {
  }

  /** The pulse on the wrap schedule: frame r of every cycle after the first wrap is
      high exactly when its wrapped phase is at most the level. */
  lemma PulseSchedule(t0: real, prd: real, level: real, n: nat, q: nat, r: nat)
    requires InPhase(t0, prd) && r < prd.Floor
    requires FirstWrap(t0, prd) + q * prd.Floor + r < n
    ensures PulseSamples(t0, prd, level, n)[FirstWrap(t0, prd) + q * prd.Floor + r] == 1.0
      <==> t0 + FirstWrap(t0, prd) as real - prd.Floor as real + r as real <= level
  {
    WrappedPhase(t0, prd, q, r);
  }

  /** 100 Hz at width 0.5 from a stream start (period 441, level 220.5): frames 0 .. 220
      are high and 221 .. 441 low, a first cycle of 442 frames; from frame 442 on every
      cycle of 441 frames is high for its first 220 frames only. */
  lemma PulseAt100Hz(n: nat, k: nat)
    requires k < n
    ensures Period(100.0) == 441.0 && Level(100.0, 0.5) == 220.5
    ensures k <= 441 ==> (PulseSamples(0.0, 441.0, 220.5, n)[k] == 1.0 <==> k <= 220)
    ensures k >= 442 ==> (PulseSamples(0.0, 441.0, 220.5, n)[k] == 1.0 <==> (k - 442) % 441 < 220)
  {
    assert (441.0).Floor == 441;
    assert FirstWrap(0.0, 441.0) == 442;
    if k <= 441 {
      RisesToWrap(0.0, 441.0, k);
    } else {
      var j := k - 442;
      assert j == (j / 441) * 441 + j % 441;
      PulseSchedule(0.0, 441.0, 220.5, n, j / 441, j % 441);
    }
  }

  /** The source's threshold width * 44100 / freq is the width's share of the period. */
  lemma PulseLevelIsShare(freq: real, width: real)
    requires freq > 0.0
    ensures Level(freq, width) == width * Period(freq)
  {
  }

  /** Two pulse callbacks of a and b frames produce what one of a + b frames would. */
  lemma PulseSplit(t0: real, prd: real, level: real, a: nat, b: nat)
    requires prd > 0.0
    ensures PulseSamples(t0, prd, level, a + b)
         == PulseSamples(t0, prd, level, a) + PulseSamples(At(t0, prd, a), prd, level, b)
  {
    var whole, left, right :=
      PulseSamples(t0, prd, level, a + b), PulseSamples(t0, prd, level, a),
      PulseSamples(At(t0, prd, a), prd, level, b);
    forall k | 0 <= k < a + b
      ensures whole[k] == (left + right)[k]
    {
      if a <= k {
        PulseShifted(t0, prd, level, a, b, k);
      }
    }
    assert whole == left + right;
  }

  /** Frame k of a run of a + b frames is frame k - a of the run that continues after a frames. */
  lemma PulseShifted(t0: real, prd: real, level: real, a: nat, b: nat, k: nat)
    requires prd > 0.0 && a <= k < a + b
    ensures PulseSamples(t0, prd, level, a + b)[k]
         == PulseSamples(At(t0, prd, a), prd, level, b)[k - a]
  {
    AtShift(t0, prd, a, k);
  }

  // ---------------------------------------------------------------------------
  // Impulse: 1.0 on the frames whose phase has passed the period, 0.0 elsewhere.

  /** The impulse sample for an unwrapped phase t. */
  function ImpulseSample(t: real, prd: real): real
  {
    if t > prd then 1.0 else 0.0
  }

  /** The n samples of an impulse callback entered with phase t0. */
  function ImpulseSamples(t0: real, prd: real, n: nat): seq<real>
    requires prd > 0.0
  {
    seq(n, i requires 0 <= i < n => ImpulseSample(At(t0, prd, i), prd))
  }

  /** One impulse per floor(prd) frames: the first at frame FirstWrap(t0, prd), every
      other frame silent. */
  lemma ImpulseEvery(t0: real, prd: real, n: nat, i: nat)
    requires InPhase(t0, prd) && i < n
    ensures ImpulseSamples(t0, prd, n)[i] in {0.0, 1.0}
    ensures i < FirstWrap(t0, prd) ==> ImpulseSamples(t0, prd, n)[i] == 0.0
    ensures i >= FirstWrap(t0, prd) ==>
      (ImpulseSamples(t0, prd, n)[i] == 1.0 <==> (i - FirstWrap(t0, prd)) % prd.Floor == 0)
  {
    if i < FirstWrap(t0, prd) {
      RisesToWrap(t0, prd, i);
    } else {
      OnSchedule(t0, prd, i);
    }
  }

  /** WrapSchedule read frame by frame: from the first wrap on, a frame wraps exactly when
      its distance from the first wrap is a multiple of floor(prd). */
  lemma OnSchedule(t0: real, prd: real, i: nat)
    requires InPhase(t0, prd) && FirstWrap(t0, prd) <= i
    ensures At(t0, prd, i) > prd <==> (i - FirstWrap(t0, prd)) % prd.Floor == 0
  {
    var j, f := i - FirstWrap(t0, prd), prd.Floor;
    assert 1 <= f;
    var q, r := j / f, j % f;
    assert j == q * f + r && 0 <= r < f;
    WrapSchedule(t0, prd, q, r);
  }

  /** Two impulse callbacks of a and b frames produce what one of a + b frames would. */
  lemma ImpulseSplit(t0: real, prd: real, a: nat, b: nat)
    requires prd > 0.0
    ensures ImpulseSamples(t0, prd, a + b)
         == ImpulseSamples(t0, prd, a) + ImpulseSamples(At(t0, prd, a), prd, b)
  {
    var whole, left, right :=
      ImpulseSamples(t0, prd, a + b), ImpulseSamples(t0, prd, a),
      ImpulseSamples(At(t0, prd, a), prd, b);
    forall k | 0 <= k < a + b
      ensures whole[k] == (left + right)[k]
    {
      if a <= k {
        ImpulseShifted(t0, prd, a, b, k);
      }
    }
    assert whole == left + right;
  }

  /** Frame k of a run of a + b frames is frame k - a of the run that continues after a frames. */
  lemma ImpulseShifted(t0: real, prd: real, a: nat, b: nat, k: nat)
    requires prd > 0.0 && a <= k < a + b
    ensures ImpulseSamples(t0, prd, a + b)[k] == ImpulseSamples(At(t0, prd, a), prd, b)[k - a]
  {
    AtShift(t0, prd, a, k);
  }

  // ---------------------------------------------------------------------------
  // Saw: a rising ramp up to width * prd, then a falling ramp, checked against [-1, 1].

  /** A double as far as the saw's range check can tell: a finite value, or the infinity
      or NaN that a division by zero produces. */
  datatype Double = Finite(x: real) | NonFinite

  /** n / d as a double: dividing by zero gives an infinity or NaN. */
  function Quotient(n: real, d: real): Double
  {
    if d == 0.0 then NonFinite else Finite(n / d)
  }

  /** c + v; an infinity or NaN stays one. */
  function Plus(c: real, v: Double): Double
  {
    match v
    case Finite(x) => Finite(c + x)
    case NonFinite => NonFinite
  }

  /** c - v; an infinity or NaN stays one. */
  function Minus(c: real, v: Double): Double
  {
    match v
    case Finite(x) => Finite(c - x)
    case NonFinite => NonFinite
  }

  /** The saw's "just in case" test `curS >= -1.0 && curS <= 1.0`, false for infinities and NaN. */
  predicate Audible(v: Double)
  {
    v.Finite? && -1.0 <= v.x <= 1.0
  }

  /** The saw value curS for a wrapped phase t, period prd and width w. */
  function SawSample(t: real, prd: real, w: real): Double
  {
    if t < w * prd then Plus(-1.0, Quotient(2.0 * t, prd * w))
    else Minus(1.0, Quotient(2.0 * (t - w * prd), prd * (1.0 - w)))
  }

  /** The saw value of the frame whose phase at the top of the frame is t. */
  function SawFrame(t: real, prd: real, w: real): Double
    requires prd > 0.0
  {
    SawSample(Wrap(t, prd), prd, w)
  }

  /** 0 <= a < d gives 0 <= a / d < 1. */
  lemma QuotientBelowOne(a: real, d: real)
    requires 0.0 <= a < d
    ensures 0.0 <= a / d < 1.0
  {
  }

  /** 0 <= a <= d gives 0 <= a / d <= 1. */
  lemma QuotientAtMostOne(a: real, d: real)
    requires 0.0 <= a <= d && 0.0 < d
    ensures 0.0 <= a / d <= 1.0
  {
  }

  /** On the rising ramp the saw is -1 + 2 t / (prd w), in [-1, 1). */
  lemma SawRising(t: real, prd: real, w: real)
    requires 0.0 <= t < w * prd
    ensures SawSample(t, prd, w) == Finite(-1.0 + 2.0 * t / (prd * w))
    ensures -1.0 <= -1.0 + 2.0 * t / (prd * w) < 1.0
  {
    var d := prd * w;
    assert d == w * prd;
    QuotientBelowOne(t, d);
    assert 2.0 * t / d == 2.0 * (t / d);
  }

  /** On the falling ramp, with a width below 1, the saw is 1 - 2 (t - w prd) / (prd (1 - w)),
      in [-1, 1]. */
  lemma SawFalling(t: real, prd: real, w: real)
    requires 0.0 < prd && w < 1.0 && w * prd <= t <= prd
    ensures SawSample(t, prd, w) == Finite(1.0 - 2.0 * (t - w * prd) / (prd * (1.0 - w)))
    ensures -1.0 <= 1.0 - 2.0 * (t - w * prd) / (prd * (1.0 - w)) <= 1.0
  {
    var d := prd * (1.0 - w);
    assert d == prd - w * prd;
    QuotientAtMostOne(t - w * prd, d);
    assert 2.0 * (t - w * prd) / d == 2.0 * ((t - w * prd) / d);
  }

  /** Inside one period the saw stays in [-1, 1], so the amplitude-spike exit is not taken;
      the only exception is width 1 at the very end of the period. The value is on the
      rising ramp exactly when t < w * prd. */
  lemma SawInRange(t: real, prd: real, w: real)
    requires 0.0 < prd && 0.0 <= t <= prd && 0.0 <= w <= 1.0
    requires w == 1.0 ==> t < prd
    ensures Audible(SawSample(t, prd, w))
    ensures t < w * prd ==> SawSample(t, prd, w).x == -1.0 + 2.0 * t / (prd * w)
    ensures t >= w * prd ==>
      SawSample(t, prd, w).x == 1.0 - 2.0 * (t - w * prd) / (prd * (1.0 - w))
  {
    if t < w * prd {
      SawRising(t, prd, w);
    } else {
      SawFalling(t, prd, w);
    }
  }

  /** The saw starts each period at -1, peaks at 1 at w * prd and is back at -1 at prd. */
  lemma SawShape(prd: real, w: real)
    requires 0.0 < prd && 0.0 < w < 1.0
    ensures SawSample(0.0, prd, w) == Finite(-1.0)
    ensures SawSample(w * prd, prd, w) == Finite(1.0)
    ensures SawSample(prd, prd, w) == Finite(-1.0)
  {
    assert 0.0 < w * prd < prd;
    var d := prd * (1.0 - w);
    assert prd - w * prd == d;
    assert 2.0 * (prd - w * prd) / d == 2.0;
  }

  /** With width 1 the falling ramp divides by zero, so the phase reaching the period
      exactly makes the saw exit. */
  lemma FullWidthSpike(prd: real)
    requires 0.0 < prd
    ensures !Audible(SawSample(prd, prd, 1.0))
  {
  }

  /** The number of frames a saw callback of n frames entered with phase t0 writes before
      its amplitude check fails: every earlier frame passes it and, when it is below n,
      the frame at that index fails it. */
  function FirstSpike(t0: real, prd: real, w: real, n: nat): (m: nat)
    requires prd > 0.0
    ensures m <= n
    ensures forall i :: 0 <= i < m ==> Audible(SawFrame(At(t0, prd, i), prd, w))
    ensures m < n ==> !Audible(SawFrame(At(t0, prd, m), prd, w))
  {
    if n == 0 then 0
    else
      var m := FirstSpike(t0, prd, w, n - 1);
      if m < n - 1 then m
      else if Audible(SawFrame(At(t0, prd, n - 1), prd, w)) then n
      else n - 1
  }

  /** The samples a saw callback of n frames entered with phase t0 writes. */
  function SawSamples(t0: real, prd: real, w: real, n: nat): seq<real>
    requires prd > 0.0
  {
    var m := FirstSpike(t0, prd, w, n);
    seq(m, i requires 0 <= i < m => SawFrame(At(t0, prd, i), prd, w).x)
  }

  /** written holds the first |written| saw frames of a run entered with phase t0, each
      of which passed the amplitude check. */
  ghost predicate SawWritten(written: seq<real>, t0: real, prd: real, w: real)
    requires prd > 0.0
  {
    forall j :: 0 <= j < |written| ==>
      Audible(SawFrame(At(t0, prd, j), prd, w)) && written[j] == SawFrame(At(t0, prd, j), prd, w).x
  }

  /** One more audible frame extends what a saw callback has written. */
  lemma SawWrittenAppend(written: seq<real>, t0: real, prd: real, w: real)
    requires prd > 0.0 && SawWritten(written, t0, prd, w)
    requires Audible(SawFrame(At(t0, prd, |written|), prd, w))
    ensures SawWritten(written + [SawFrame(At(t0, prd, |written|), prd, w).x], t0, prd, w)
  {
  }

  /** The frames a saw callback has written when it stops: all audible, followed by the
      end of the buffer or by a frame that fails the check, are its SawSamples. */
  lemma SawSamplesAre(written: seq<real>, t0: real, prd: real, w: real, n: nat)
    requires prd > 0.0 && |written| <= n
    requires SawWritten(written, t0, prd, w)
    requires |written| < n ==> !Audible(SawFrame(At(t0, prd, |written|), prd, w))
    ensures FirstSpike(t0, prd, w, n) == |written|
    ensures SawSamples(t0, prd, w, n) == written
  {
  }

  /** A frame count meeting FirstSpike's contract is FirstSpike. */
  lemma FirstSpikeUnique(t0: real, prd: real, w: real, n: nat, m: nat)
    requires prd > 0.0 && m <= n
    requires forall i :: 0 <= i < m ==> Audible(SawFrame(At(t0, prd, i), prd, w))
    requires m < n ==> !Audible(SawFrame(At(t0, prd, m), prd, w))
    ensures FirstSpike(t0, prd, w, n) == m
  {
  }

  /** When the first a frames all pass the check, the spike of a run of a + b frames is
      the spike of the run of b frames entered where the first a frames left the phase. */
  lemma SpikeShift(t0: real, prd: real, w: real, a: nat, b: nat)
    requires prd > 0.0 && FirstSpike(t0, prd, w, a) == a
    ensures FirstSpike(t0, prd, w, a + b) == a + FirstSpike(At(t0, prd, a), prd, w, b)
  {
    var m := FirstSpike(At(t0, prd, a), prd, w, b);
    forall i | a <= i < a + m
      ensures Audible(SawFrame(At(t0, prd, i), prd, w))
    {
      AtShift(t0, prd, a, i);
    }
    if m < b {
      AtShift(t0, prd, a, a + m);
    }
    FirstSpikeUnique(t0, prd, w, a + b, a + m);
  }

  /** A saw callback of a frames that did not exit, followed by one of b frames, writes
      what one callback of a + b frames would: the stream does not depend on how the
      driver cuts it into buffers. (A callback that exits ends the process, so no second
      callback follows it.) */
  lemma SawSplit(t0: real, prd: real, w: real, a: nat, b: nat)
    requires prd > 0.0 && FirstSpike(t0, prd, w, a) == a
    ensures SawSamples(t0, prd, w, a + b)
         == SawSamples(t0, prd, w, a) + SawSamples(At(t0, prd, a), prd, w, b)
  {
    SpikeShift(t0, prd, w, a, b);
    var whole, left, right :=
      SawSamples(t0, prd, w, a + b), SawSamples(t0, prd, w, a),
      SawSamples(At(t0, prd, a), prd, w, b);
    assert |left| == a && |whole| == a + |right|;
    forall k | 0 <= k < |whole|
      ensures whole[k] == (left + right)[k]
    {
      if k < a {
        assert (left + right)[k] == left[k];
      } else {
        var t := At(t0, prd, a);
        AtShift(t0, prd, a, k);
        assert (left + right)[k] == right[k - a];
        assert right[k - a] == SawFrame(At(t, prd, k - a), prd, w).x;
      }
    }
    assert whole == left + right;
  }

  /** Inside the phase invariant and with a width in [0, 1), no saw frame spikes. */
  lemma SawNeverSpikes(t0: real, prd: real, w: real, n: nat)
    requires InPhase(t0, prd) && 0.0 <= w < 1.0
    ensures FirstSpike(t0, prd, w, n) == n
  {
    var m := FirstSpike(t0, prd, w, n);
    if m < n {
      PhaseInRange(t0, prd, m);
      SawInRange(Wrap(At(t0, prd, m), prd), prd, w);
    }
  }

  /** A width of 1, which the width prompt admits, with a whole-number period P (for
      instance 100 Hz, P = 441) and a stream started at phase 0: the saw writes frames
      0 .. P-1 and exits at frame P. */
  lemma FullWidthSawExits(p: nat, n: nat)
    requires 1 <= p < n
    ensures FirstSpike(0.0, p as real, 1.0, n) == p
  {
    var prd := p as real;
    var m := FirstSpike(0.0, prd, 1.0, n);
    assert FirstWrap(0.0, prd) == p + 1;
    if m < p {
      RisesToWrap(0.0, prd, m);
      SawInRange(m as real, prd, 1.0);
    } else if m > p {
      RisesToWrap(0.0, prd, p);
      FullWidthSpike(prd);
    }
    RisesToWrap(0.0, prd, p);
  }

  // ---------------------------------------------------------------------------
  // Noise: (rand() % 128 - 64) / 64 for a non-negative draw.

  /** The noise sample for one rand() draw r; it lies on the grid k / 64, k in [-64, 63]. */
  function NoiseSample(r: nat): (v: real)
    ensures -1.0 <= v <= 63.0 / 64.0
    ensures (v * 64.0).Floor as real == v * 64.0
  {
    var k := r % 128 - 64;
    assert -64 <= k <= 63;
    k as real / 64.0
  }

  /** Every point of the grid is produced by some draw. */
  lemma NoiseCovers(k: int)
    requires -64 <= k <= 63
    ensures NoiseSample((k + 64) as nat) == k as real / 64.0
  {
  }

  /** The samples of a noise callback that drew `draws` from rand(), one per frame. */
  function NoiseSamples(draws: seq<nat>): seq<real>
  {
    seq(|draws|, i requires 0 <= i < |draws| => NoiseSample(draws[i]))
  }
}
