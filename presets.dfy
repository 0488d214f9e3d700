/** The preset voices of voice_changer.py: fixed chains of the effect
    primitives and of library calls this model does not interpret.

    Each preset is written as the direct composition the source performs and
    is proved equal to the run of an explicit chain of steps; the chain view
    states what any order of steps guarantees (the last clip bounds the
    result, sample-domain steps keep the length, order matters). */
module Presets {
  import opened Signal
  import Effects

  /** The collaborators a preset calls at its sample rate, taken as given:
      pitch shifting, time stretching, pre-emphasis and band-pass filtering
      come from audio libraries, `samples(t)` is `int(sr * t)`, and `wave` is
      the sine oscillator at that rate. */
  datatype Dsp = Dsp(
    sampleRate: Rate,
    pitchShift: (seq<real>, int) -> seq<real>,
    timeStretch: (seq<real>, real) -> seq<real>,
    preemphasis: seq<real> -> seq<real>,
    bandpass: (real, real, seq<real>) -> seq<real>,
    samples: real -> nat,
    wave: Wave)

  /** One stage of a preset. Times are in seconds, frequencies in Hz. */
  datatype Step =
    | PitchShift(semitones: int)
    | ChangeSpeed(rate: real)
    | Bandpass(low: real, high: real)
    | Reverb(amount: real)
    | Echo(delay: real, decay: real)
    | Delay(delay: real, feedback: real)
    | Chorus(depth: real, rate: real)
    | ClipGain(gain: real)
    | RingMod(carrier: real)
    | Reverse

  /** What one stage does to the buffer: a library call, or the effect
      primitive with its times converted to samples at the preset's rate. */
  function Apply(step: Step, dsp: Dsp, x: seq<real>): (r: seq<real>)
    ensures SampleDomain(step) ==> |r| == |x|
    ensures Clips(step) ==> BoundedBy(r, 1.0)
  {
    match step
    case PitchShift(n) => dsp.pitchShift(x, n)
    case ChangeSpeed(rate) => dsp.timeStretch(x, rate)
    case Bandpass(low, high) => dsp.bandpass(low, high, x)
    case Reverb(amount) => Effects.Reverb(dsp.preemphasis, x, amount)
    case Echo(t, decay) => Effects.Echoed(x, dsp.samples(t), decay)
    case Delay(t, feedback) => Effects.Delayed(x, dsp.samples(t), feedback)
    case Chorus(depth, rate) => Effects.Chorused(x, dsp.wave, dsp.sampleRate, depth, rate)
    case ClipGain(g) => Effects.ClipScaled(x, g)
    case RingMod(f) => Effects.RingModulated(x, dsp.wave, f)
    case Reverse => Effects.Reversed(x)
  }

  /** The stages applied left to right, each to the previous one's output.
      A chain of sample-domain stages keeps the buffer's length. */
  function Run(chain: seq<Step>, dsp: Dsp, x: seq<real>): (r: seq<real>)
    ensures (forall k :: 0 <= k < |chain| ==> SampleDomain(chain[k])) ==> |r| == |x|
    decreases |chain|
  {
    if |chain| == 0 then x
    else
      assert (forall k :: 0 <= k < |chain| ==> SampleDomain(chain[k]))
          ==> (forall k :: 0 <= k < |chain[1..]| ==> SampleDomain(chain[1..][k]));
      Run(chain[1..], dsp, Apply(chain[0], dsp, x))
  }

  /** A stage that ends in `np.clip(.., -1, 1)`. */
  predicate Clips(step: Step) {
    step.Reverb? || step.ClipGain?
  }

  /** A stage computed here sample by sample, which keeps the length. */
  predicate SampleDomain(step: Step) {
    !(step.PitchShift? || step.ChangeSpeed? || step.Bandpass? || step.Reverb?)
  }

  /** Running two chains one after the other is running their concatenation. */
  lemma {:induction false} RunAppend(a: seq<Step>, b: seq<Step>, dsp: Dsp, x: seq<real>)
    ensures Run(a + b, dsp, x) == Run(b, dsp, Run(a, dsp, x))
    decreases |a|
  {
    if |a| == 0 {
      assert a + b == b;
    } else {
      assert (a + b)[1..] == a[1..] + b;
      RunAppend(a[1..], b, dsp, Apply(a[0], dsp, x));
    }
  }

  /** A chain whose last stage clips yields samples in [-1, 1], whatever the
      earlier stages and the library calls produce. */
  lemma RunEndsClipped(chain: seq<Step>, dsp: Dsp, x: seq<real>)
    requires |chain| > 0 && Clips(chain[|chain| - 1])
    ensures BoundedBy(Run(chain, dsp, x), 1.0)
  {
    var n := |chain| - 1;
    assert chain == chain[..n] + [chain[n]];
    RunAppend(chain[..n], [chain[n]], dsp, x);
  }

  /** The order of the stages matters: reversing and then delaying (as the
      transcendent voice does) is not delaying and then reversing. */
  lemma ReverseThenDelayDiffers(dsp: Dsp)
    requires dsp.samples(0.1) == 1
    ensures Run([Reverse, Delay(0.1, 0.5)], dsp, [1.0, 0.0])
         != Run([Delay(0.1, 0.5), Reverse], dsp, [1.0, 0.0])
  {
    var x := [1.0, 0.0];
    RunAppend([Reverse], [Delay(0.1, 0.5)], dsp, x);
    RunAppend([Delay(0.1, 0.5)], [Reverse], dsp, x);
    var r := Effects.Reversed(x);
    assert r == [0.0, 1.0];
    var a := Effects.Delayed(r, 1, 0.5);
    assert a[1] == r[1] + 0.5 * a[0] == 1.0;
    var b := Effects.Delayed(x, 1, 0.5);
    assert b[1] == x[1] + 0.5 * b[0] == 0.0;
    assert Effects.Reversed(b)[0] == 0.0;
    assert Run([Reverse, Delay(0.1, 0.5)], dsp, x)[1] == 1.0;
    assert Run([Delay(0.1, 0.5), Reverse], dsp, x)[1] == Effects.Reversed(b)[1];
  }

  // ---------------------------------------------------------------------
  // The chains of the presets built on the effect primitives

  const Haunted: seq<Step> := [Reverb(0.9), Echo(0.3, 0.8)]
  const Monster: seq<Step> := [PitchShift(-9), ClipGain(10.0)]
  const Megaphone: seq<Step> := [Bandpass(500.0, 5000.0), ClipGain(5.0)]
  const Space: seq<Step> := [Reverb(0.9), Echo(0.5, 0.6)]
  const Deep: seq<Step> := [PitchShift(-6), ClipGain(2.0)]
  const BrokenRobot: seq<Step> := [PitchShift(-4), ClipGain(1.5), ChangeSpeed(0.8)]
  const DarthVader: seq<Step> := [PitchShift(-7), Reverb(0.7)]
  const GhostlyWhisper: seq<Step> := [PitchShift(-5), Reverb(0.95)]
  const Cylon: seq<Step> := [PitchShift(-6), ChangeSpeed(0.8), RingMod(30.0)]
  const EvilWitch: seq<Step> := [PitchShift(-3), Echo(0.3, 0.6)]
  const Cyberpunk: seq<Step> := [PitchShift(4), ClipGain(1.5), Echo(0.4, 0.5)]
  const MadScientist: seq<Step> := [PitchShift(5), ClipGain(1.3), Echo(0.5, 0.6)]
  const Cybernetic: seq<Step> := [PitchShift(3), ClipGain(1.4), RingMod(20.0)]
  const Galactic: seq<Step> := [PitchShift(3), Echo(0.5, 0.5), Reverb(0.8)]
  const Celestial: seq<Step> := [Chorus(0.5, 1.3), Reverb(0.6)]
  const Cosmic: seq<Step> := [PitchShift(5), Echo(0.3, 0.5), Reverb(0.8)]
  const Mystical: seq<Step> := [PitchShift(3), Chorus(0.02, 1.2), Delay(0.05, 0.3)]
  const Enchanted: seq<Step> := [PitchShift(4), Chorus(0.03, 1.3), Reverb(0.7)]
  const Transcendent: seq<Step> := [PitchShift(6), Reverse, Delay(0.1, 0.5)]
  const Tunnel: seq<Step> := [Reverb(0.95)]

  // ---------------------------------------------------------------------
  // The presets, as the source composes them

  function HauntedVoice(dsp: Dsp, x: seq<real>): (r: seq<real>)
    ensures r == Run(Haunted, dsp, x)
    ensures BoundedBy(r, 1.8)
  {
    var v := Effects.Reverb(dsp.preemphasis, x, 0.9);
    Effects.EchoedBounded(v, dsp.samples(0.3), 0.8, 1.0);
    Effects.Echoed(v, dsp.samples(0.3), 0.8)
  }

  function MonsterVoice(dsp: Dsp, x: seq<real>): (r: seq<real>)
    ensures r == Run(Monster, dsp, x)
    ensures BoundedBy(r, 1.0)
  {
    Effects.DistortedVoice(dsp.pitchShift(x, -9))
  }

  function MegaphoneVoice(dsp: Dsp, x: seq<real>): (r: seq<real>)
    ensures r == Run(Megaphone, dsp, x)
    ensures BoundedBy(r, 1.0)
  {
    Effects.ClipScaled(dsp.bandpass(500.0, 5000.0, x), 5.0)
  }

  function SpaceVoice(dsp: Dsp, x: seq<real>): (r: seq<real>)
    ensures r == Run(Space, dsp, x)
    ensures BoundedBy(r, 1.6)
  {
    var v := Effects.Reverb(dsp.preemphasis, x, 0.9);
    Effects.EchoedBounded(v, dsp.samples(0.5), 0.6, 1.0);
    Effects.Echoed(v, dsp.samples(0.5), 0.6)
  }

  function DeepVoice(dsp: Dsp, x: seq<real>): (r: seq<real>)
    ensures r == Run(Deep, dsp, x)
    ensures BoundedBy(r, 1.0)
  {
    Effects.ClipScaled(dsp.pitchShift(x, -6), 2.0)
  }

  /** The clip comes before the time stretch, so nothing bounds the result. */
  function BrokenRobotVoice(dsp: Dsp, x: seq<real>): (r: seq<real>)
    ensures r == Run(BrokenRobot, dsp, x)
  {
    dsp.timeStretch(Effects.ClipScaled(dsp.pitchShift(x, -4), 1.5), 0.8)
  }

  function DarthVaderVoice(dsp: Dsp, x: seq<real>): (r: seq<real>)
    ensures r == Run(DarthVader, dsp, x)
    ensures BoundedBy(r, 1.0)
  {
    Effects.Reverb(dsp.preemphasis, dsp.pitchShift(x, -7), 0.7)
  }

  function GhostlyWhisperVoice(dsp: Dsp, x: seq<real>): (r: seq<real>)
    ensures r == Run(GhostlyWhisper, dsp, x)
    ensures BoundedBy(r, 1.0)
  {
    Effects.Reverb(dsp.preemphasis, dsp.pitchShift(x, -5), 0.95)
  }

  /** The 30 Hz ring modulation keeps the stretched buffer's length and never
      amplifies one of its samples. */
  function CylonVoice(dsp: Dsp, x: seq<real>): (r: seq<real>)
    ensures r == Run(Cylon, dsp, x)
    ensures var s := dsp.timeStretch(dsp.pitchShift(x, -6), 0.8);
            |r| == |s| && forall i :: 0 <= i < |s| ==> Abs(r[i]) <= Abs(s[i])
  {
    var s := dsp.timeStretch(dsp.pitchShift(x, -6), 0.8);
    Effects.RingModulatedAttenuates(s, dsp.wave, 30.0);
    Effects.RingModulated(s, dsp.wave, 30.0)
  }

  function EvilWitchVoice(dsp: Dsp, x: seq<real>): (r: seq<real>)
    ensures r == Run(EvilWitch, dsp, x)
    ensures |r| == |dsp.pitchShift(x, -3)|
  {
    Effects.Echoed(dsp.pitchShift(x, -3), dsp.samples(0.3), 0.6)
  }

  function CyberpunkVoice(dsp: Dsp, x: seq<real>): (r: seq<real>)
    ensures r == Run(Cyberpunk, dsp, x)
    ensures BoundedBy(r, 1.5)
  {
    var v := Effects.ClipScaled(dsp.pitchShift(x, 4), 1.5);
    Effects.EchoedBounded(v, dsp.samples(0.4), 0.5, 1.0);
    Effects.Echoed(v, dsp.samples(0.4), 0.5)
  }

  function MadScientistVoice(dsp: Dsp, x: seq<real>): (r: seq<real>)
    ensures r == Run(MadScientist, dsp, x)
    ensures BoundedBy(r, 1.6)
  {
    var v := Effects.ClipScaled(dsp.pitchShift(x, 5), 1.3);
    Effects.EchoedBounded(v, dsp.samples(0.5), 0.6, 1.0);
    Effects.Echoed(v, dsp.samples(0.5), 0.6)
  }

  /** Clipping and then ring modulation by a unit carrier stays in [-1, 1]. */
  function CyberneticVoice(dsp: Dsp, x: seq<real>): (r: seq<real>)
    ensures r == Run(Cybernetic, dsp, x)
    ensures BoundedBy(r, 1.0)
  {
    var v := Effects.ClipScaled(dsp.pitchShift(x, 3), 1.4);
    Effects.RingModulatedAttenuates(v, dsp.wave, 20.0);
    Effects.RingModulated(v, dsp.wave, 20.0)
  }

  function GalacticVoice(dsp: Dsp, x: seq<real>): (r: seq<real>)
    ensures r == Run(Galactic, dsp, x)
    ensures BoundedBy(r, 1.0)
  {
    var v := Effects.Echoed(dsp.pitchShift(x, 3), dsp.samples(0.5), 0.5);
    Effects.Reverb(dsp.preemphasis, v, 0.8)
  }

  function CelestialVoice(dsp: Dsp, x: seq<real>): (r: seq<real>)
    ensures r == Run(Celestial, dsp, x)
    ensures BoundedBy(r, 1.0)
  {
    var v := Effects.Chorused(x, dsp.wave, dsp.sampleRate, 0.5, 1.3);
    Effects.Reverb(dsp.preemphasis, v, 0.6)
  }

  function CosmicVoice(dsp: Dsp, x: seq<real>): (r: seq<real>)
    ensures r == Run(Cosmic, dsp, x)
    ensures BoundedBy(r, 1.0)
  {
    var v := Effects.Echoed(dsp.pitchShift(x, 5), dsp.samples(0.3), 0.5);
    Effects.Reverb(dsp.preemphasis, v, 0.8)
  }

  /** After the pitch shift only sample-domain stages run, so the result is
      as long as the shifted buffer. */
  function MysticalVoice(dsp: Dsp, x: seq<real>): (r: seq<real>)
    ensures r == Run(Mystical, dsp, x)
    ensures |r| == |dsp.pitchShift(x, 3)|
  {
    var v := Effects.Chorused(dsp.pitchShift(x, 3), dsp.wave, dsp.sampleRate, 0.02, 1.2);
    Effects.Delayed(v, dsp.samples(0.05), 0.3)
  }

  function EnchantedVoice(dsp: Dsp, x: seq<real>): (r: seq<real>)
    ensures r == Run(Enchanted, dsp, x)
    ensures BoundedBy(r, 1.0)
  {
    var v := Effects.Chorused(dsp.pitchShift(x, 4), dsp.wave, dsp.sampleRate, 0.03, 1.3);
    Effects.Reverb(dsp.preemphasis, v, 0.7)
  }

  /** The reversed shifted buffer through the feedback delay, as long as the
      shifted buffer. */
  function TranscendentVoice(dsp: Dsp, x: seq<real>): (r: seq<real>)
    ensures r == Run(Transcendent, dsp, x)
    ensures |r| == |dsp.pitchShift(x, 6)|
  {
    var v := Effects.Reversed(dsp.pitchShift(x, 6));
    Effects.Delayed(v, dsp.samples(0.1), 0.5)
  }

  /** With feedback 0.5 the delay at most doubles the shifted buffer's bound. */
  lemma TranscendentBounded(dsp: Dsp, x: seq<real>, b: real)
    requires BoundedBy(dsp.pitchShift(x, 6), b)
    ensures BoundedBy(TranscendentVoice(dsp, x), 2.0 * b)
  {
    var v := Effects.Reversed(dsp.pitchShift(x, 6));
    Effects.ReversedBounded(dsp.pitchShift(x, 6), b);
    Effects.DelayedBounded(v, dsp.samples(0.1), 0.5, b);
    assert b / (1.0 - Abs(0.5)) == 2.0 * b;
  }

  function TunnelVoice(dsp: Dsp, x: seq<real>): (r: seq<real>)
    ensures r == Run(Tunnel, dsp, x)
    ensures BoundedBy(r, 1.0)
  {
    Effects.Reverb(dsp.preemphasis, x, 0.95)
  }
}
