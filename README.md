# voice_changer effects and presets in Dafny

A model of the sample-level core of `voice_changer.py`: the effect
primitives that transform a mono buffer of float samples (feedback delay,
echo, chorus, flanger, reversal, stutter, clipping distortion, reverb
scaling, tremolo, ring modulation, in-place volume) and the preset voices
that chain them with library calls.

Samples are `real`, buffers `seq<real>`. Every conversion of seconds into a
sample count (`int(sr * t)`) arrives as a given `nat`; in the presets it is
the function `samples` of the `Dsp` record. The sine oscillators are a given
`Wave` (frequency and sample index to a value in [-1, 1]); their exact
values are not modelled. Python's `int()` on a float is modelled exactly as
truncation toward zero (`Signal.Trunc`).

Three modules:

- `Signal` (`signal.dfy`): absolute value, truncation, `np.clip(v, -1, 1)`,
  the oscillator type, and element-wise scaling, mixing and delay-line views.
- `Effects` (`effects.dfy`): each primitive the source writes as a loop over a
  copied or zero-filled numpy array is a method that runs that loop over a
  local array and is proved equal to a specification function. The
  vectorised primitives are functions. `increase_volume` is a method that
  scales the caller's array in place. Lemmas state bounds, impulse
  responses, round trips and uniqueness.
- `Presets` (`presets.dfy`): the library collaborators (pitch shift, time
  stretch, pre-emphasis, band-pass filter) are uninterpreted function fields
  of a `Dsp` record, with no length or value facts assumed. Each preset is
  the composition the source writes. It is proved equal to the run of an
  explicit chain of `Step`s, and its amplitude bound is proved where one
  exists.

Where the code differs from what one would expect of the effect, the model
follows the code:

- `apply_delay` fills a zeroed buffer and starts at `delay_samples`, so the
  first `delay_samples` output samples are silent. They do not pass the
  input through (`voice_changer.py:10-12`).
- With `delay_samples == 0`, `apply_delay` reads slot `i` before writing it,
  and that slot still holds 0. The output therefore equals the input.
- Chorus and flanger indices, and the stutter's half segment, use `int()`,
  which truncates toward zero. They are not rounded (`voice_changer.py:21`,
  `:231`, `:242`).
- `increase_volume` multiplies its argument in place and returns that same
  array (`voice_changer.py:46-47`). It does not make a copy. The batch
  driver calls it on the loaded buffer (`voice_changer.py:403`), so every
  later preset in that run receives the amplified buffer.
- `apply_chorus` accepts a `delay` argument and never uses it. The flanger's
  `delay_samples = np.arange(...)` (`voice_changer.py:228`) is dead code.
  Neither appears in the model.

## Model

| member | source | states |
|---|---|---|
| Signal.Trunc | voice_changer.py:21 | `int()` on a float: magnitude is the largest integer not above the argument's magnitude, with the argument's sign |
| Signal.Clip | voice_changer.py:137 | `np.clip(v, -1, 1)`: result in [-1, 1], identity inside, saturates to ±1 outside, never grows in magnitude |
| Effects.Delayed | voice_changer.py:8-13 | feedback delay output: same length; samples before `d` are 0; for `i >= d > 0`, `y[i] == x[i] + fb * y[i-d]` reads the output; `d == 0` returns the input; `d >= len` gives all zeros |
| Effects.ApplyDelay | voice_changer.py:8-13 | the zero-filled array loop from `d` computes exactly `Delayed` |
| Effects.DelayedIsFeedback | voice_changer.py:10-12 | the output is a fixed point of `y = gate_d(x) + fb * delayline_d(y)` |
| Effects.DelayedUnique | voice_changer.py:10-12 | every buffer satisfying that fixed-point equation is the delay's output |
| Effects.DelayedBounded | voice_changer.py:8-13 | for `abs(fb) < 1`, input bounded by `b` gives output bounded by `b / (1 - abs(fb))` |
| Effects.DelayImpulseTrain | voice_changer.py:11-12 | an impulse at `d` produces repeats at every multiple of `d`, the k-th scaled by `fb^(k-1)`, and zeros elsewhere |
| Effects.Echoed | voice_changer.py:56-62 | echo output: same length; `y[i] == x[i]` before `d`; `y[i] == x[i] + decay * x[i-d]` after, reading the input only |
| Effects.ApplyEcho | voice_changer.py:56-62 | the loop over the copied array computes exactly `Echoed` |
| Effects.ApplyStrongEcho | voice_changer.py:183-189 | the strong echo's loop computes exactly `Echoed` |
| Effects.EchoImpulseSingleRepeat | voice_changer.py:60-61 | an impulse yields itself plus exactly one repeat `d` samples later, scaled by `decay` |
| Effects.EchoedBounded | voice_changer.py:56-62 | input bounded by `b` gives echo bounded by `b + abs(decay) * b` |
| Effects.ChorusIndex | voice_changer.py:17-21 | the read index `int(i - m[i])` with `m[i] = sin * depth * sr`: within 1 of `i - m[i]`, on the side of zero; equal to `i` when the depth is 0 |
| Effects.Chorused | voice_changer.py:16-24 | the chorus keeps the buffer's length |
| Effects.ApplyChorus | voice_changer.py:16-24 | the loop over the copied array adds `x[int(i - m[i])]` only when that index is in range, and computes exactly `Chorused` |
| Effects.ChorusWithoutDepthDoubles | voice_changer.py:17-23 | with depth 0 every sample reads itself, so the chorus doubles the signal |
| Effects.ChorusTruncatesTowardZero | voice_changer.py:21-23 | at any sample `i` whose modulator value lies in `(i, i + 1)`, `int(i - m[i])` is 0, not -1, so sample `i` gains `x[0]` |
| Effects.ChorusedBounded | voice_changer.py:19-24 | input bounded by `b` gives chorus bounded by `2b` |
| Effects.FlangerDelay | voice_changer.py:229-231 | the flanger's lookback `int(0.5 * (1 + sin) * max_delay)` lies in `[0, max_delay]` |
| Effects.Flanged | voice_changer.py:224-233 | flanger output: same length; the first `max_delay` samples are unchanged |
| Effects.ApplyFlanger | voice_changer.py:224-233 | the loop over the copied array computes exactly `Flanged` |
| Effects.FlangerReadsBehind | voice_changer.py:230-232 | from `max_delay` on, the read index lies in `[i - max_delay, i]` and `y[i] == x[i] + 0.5 * x[j]` |
| Effects.FlangedBounded | voice_changer.py:226-233 | input bounded by `b` gives flanger output bounded by `1.5b` |
| Effects.Reversed | voice_changer.py:95-98 | reversal keeps the length |
| Effects.ReversedInvolution | voice_changer.py:97 | reversing twice gives back the buffer |
| Effects.ReversedAppend | voice_changer.py:97 | reversing a concatenation swaps and reverses the parts |
| Effects.ReversedPermutes | voice_changer.py:97 | reversal is a permutation (same multiset of samples) |
| Effects.ReversedBounded | voice_changer.py:97 | reversal keeps any amplitude bound |
| Effects.Stuttered | voice_changer.py:239-242 | the stuttered buffer for a positive segment length: at least as long as the input and at most twice as long |
| Effects.ApplyStutter | voice_changer.py:236-243 | segment length 0 raises as `range` does; a negative length gives an empty output; a positive one gives exactly `Stuttered` |
| Effects.StutterSegments | voice_changer.py:239-242 | the list-growing loop, extending by each segment and then its first `int(S/2)` samples, computes exactly `Stuttered` |
| Effects.StutterStep | voice_changer.py:240-242 | one loop turn appends `x[i:i+S]` and then `x[i:i+int(S/2)]`, both cut at the end of the buffer |
| Effects.StutterLength | voice_changer.py:238-243 | output length is `(L div S) * (S + S div 2) + r + min(r, S div 2)`, where `r = L mod S` |
| Effects.StutterHundredByTen | voice_changer.py:236-243 | 100 samples in segments of 10 give 150 samples |
| Effects.UnstutterStuttered | voice_changer.py:240-242 | dropping the repeated halves gives back the input, so no sample is lost or reordered |
| Effects.ClipScaled | voice_changer.py:68 | `np.clip(x * g, -1, 1)`: same length, every sample in [-1, 1], equal to `x * g` wherever that is in range |
| Effects.ClipGain | voice_changer.py:198 | one clipped sample lies in [-1, 1] and equals `v * g` when that is in range |
| Effects.ClipScaledIdempotent | voice_changer.py:212 | clipping a clipped buffer again at unit gain changes nothing |
| Effects.DistortedVoice | voice_changer.py:135-138 | gain 10 then clip: bounded by 1, linear (`10x`) for samples in [-0.1, 0.1] |
| Effects.Reverb | voice_changer.py:65-69 | whatever pre-emphasis returns, the reverb output lies in [-1, 1] |
| Effects.Tremolo | voice_changer.py:216-221 | tremolo keeps the length |
| Effects.TremoloAttenuates | voice_changer.py:218-220 | the 5 Hz envelope lies in [0, 1]: no sample grows in magnitude or changes sign |
| Effects.RingModulated | voice_changer.py:299-301 | ring modulation keeps the length |
| Effects.RingModulatedAttenuates | voice_changer.py:339-341 | a unit sine carrier never amplifies a sample |
| Effects.IncreaseVolume | voice_changer.py:44-47 | scales the caller's array in place (`buf[i] == old(buf[i]) * factor`) and returns the same array |
| Effects.ScaledInverse | voice_changer.py:46 | scaling by a non-zero factor is undone by scaling by its inverse |
| Presets.Apply | voice_changer.py:8-69 | one preset stage: a library call, or an effect primitive with times converted at the preset's rate; sample-domain stages keep the length, reverb and clip stages yield samples in [-1, 1] |
| Presets.Run | voice_changer.py:150-154 | a chain applied left to right; a chain of sample-domain stages keeps the buffer's length |
| Presets.RunAppend | voice_changer.py:150-154 | running two chains in sequence is running their concatenation |
| Presets.RunEndsClipped | voice_changer.py:65-69 | any chain whose last stage is a reverb or a clip yields samples in [-1, 1] |
| Presets.ReverseThenDelayDiffers | voice_changer.py:384-389 | stage order matters: reverse-then-delay and delay-then-reverse differ on `[1, 0]` |
| Presets.HauntedVoice | voice_changer.py:150-154 | reverb 0.9 then echo (0.3 s, 0.8); bounded by 1.8 |
| Presets.MonsterVoice | voice_changer.py:157-161 | pitch -9 then distortion; bounded by 1 |
| Presets.MegaphoneVoice | voice_changer.py:192-199 | band-pass 500-5000 Hz then clip at gain 5; bounded by 1 |
| Presets.SpaceVoice | voice_changer.py:202-206 | reverb 0.9 then echo (0.5 s, 0.6); bounded by 1.6 |
| Presets.DeepVoice | voice_changer.py:209-213 | pitch -6 then clip at gain 2; bounded by 1 |
| Presets.BrokenRobotVoice | voice_changer.py:246-251 | pitch -4, clip at gain 1.5, then stretch 0.8, in that order |
| Presets.DarthVaderVoice | voice_changer.py:281-285 | pitch -7 then reverb 0.7; bounded by 1 |
| Presets.GhostlyWhisperVoice | voice_changer.py:288-292 | pitch -5 then reverb 0.95; bounded by 1 |
| Presets.CylonVoice | voice_changer.py:295-302 | pitch -6, stretch 0.8, 30 Hz ring modulation; same length as the stretched buffer and no sample amplified |
| Presets.EvilWitchVoice | voice_changer.py:305-309 | pitch -3 then echo (0.3 s, 0.6); as long as the shifted buffer |
| Presets.CyberpunkVoice | voice_changer.py:319-324 | pitch 4, clip at 1.5, echo (0.4 s, 0.5); bounded by 1.5 |
| Presets.MadScientistVoice | voice_changer.py:327-332 | pitch 5, clip at 1.3, echo (0.5 s, 0.6); bounded by 1.6 |
| Presets.CyberneticVoice | voice_changer.py:335-342 | pitch 3, clip at 1.4, 20 Hz ring modulation; bounded by 1 |
| Presets.GalacticVoice | voice_changer.py:345-350 | pitch 3, echo (0.5 s, 0.5), reverb 0.8; bounded by 1 |
| Presets.CelestialVoice | voice_changer.py:353-357 | chorus (depth 0.5, 1.3 Hz) then reverb 0.6; bounded by 1 |
| Presets.CosmicVoice | voice_changer.py:360-365 | pitch 5, echo (0.3 s, 0.5), reverb 0.8; bounded by 1 |
| Presets.MysticalVoice | voice_changer.py:368-373 | pitch 3, chorus (0.02, 1.2 Hz), delay (0.05 s, 0.3); as long as the shifted buffer |
| Presets.EnchantedVoice | voice_changer.py:376-381 | pitch 4, chorus (0.03, 1.3 Hz), reverb 0.7; bounded by 1 |
| Presets.TranscendentVoice | voice_changer.py:384-389 | pitch 6, reverse, delay (0.1 s, 0.5); as long as the shifted buffer |
| Presets.TranscendentBounded | voice_changer.py:384-389 | with feedback 0.5 the output is bounded by twice the shifted buffer's bound |
| Presets.TunnelVoice | voice_changer.py:392-393 | reverb 0.95; bounded by 1 |

Each preset's first `ensures` ties it to the run of its chain constant
(`Presets.Haunted`, …), which lists its stages in the source's order.

## Left out

- Library calls are uninterpreted fields of `Dsp`, with no facts about their output: `librosa.effects.pitch_shift`, `time_stretch`, `preemphasis` and `harmonic`, and the scipy `butter`/`sosfilt` band-pass (`voice_changer.py:40`, `:52`, `:67`, `:117-118`, `:145-146`, `:196-197`, `:276`).
- Presets made only of library calls have nothing to model beyond the call: child, male, demon, telephone, chipmunk, slow motion, underwater, alien, slow down, cyborg, robot vocoder.
- Whisper, radio and digital-glitch presets add `np.random.normal` noise (`voice_changer.py:164-180`, `:312-316`). They are nondeterministic and not modelled.
- The girl voice's fade (`voice_changer.py:72-86`) depends on library output lengths and on numpy's `[-0:]` slice. It is not modelled.
- File input and output (`load_audio`, `save_audio`, `voice_changer.py:27-35`) and the batch driver (`voice_changer.py:397-493`) are not modelled.
- A sample rate of 0, where `np.arange(n) / sr` is not a number and `int()` of it raises ValueError in the chorus and the flanger (`voice_changer.py:21`, `:231`), is not modelled: the chorus and the presets take a positive `Rate`, and the flanger's oscillator is one at a positive rate.
- Floating point: samples are exact reals, so rounding and overflow to infinity are not modelled. The sine values and the float-to-int conversion of seconds into sample counts are given as inputs.
- Effects.ApplyEcho: `delay_samples` is a `nat`. A negative delay, which `int(sr * t)` gives only for a negative time, is not modelled.
- Effects.Chorused: the `delay` parameter of `apply_chorus` is unused in the source and has no counterpart.
- Presets.BrokenRobotVoice: the result is not bounded, because the time stretch comes after the clip.
- Presets.EvilWitchVoice: no amplitude bound is stated, because the pitch shifter's output is unconstrained.
