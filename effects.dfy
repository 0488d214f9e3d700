/** The sample-domain effect primitives of voice_changer.py.

    A primitive that the source writes as a loop over a copied or zero-filled
    numpy array is a method over a local array (that copy), proved equal to a
    specification function; the presets compose the specification functions.
    The vectorised primitives (clip, tremolo, ring modulation, reversal) are
    functions. Time-to-sample conversions such as `int(sr * delay_time)` arrive
    as given sample counts, and sine oscillators as a given `Wave`. */
module Effects {
  import opened Signal

  /** The exception the source can raise: `range(0, n, 0)`. */
  datatype Error = RangeStepZero

  datatype Result<T> = Ok(value: T) | Err(error: Error)

  /** `(n - d) / d` and `(n - d) % d` once one period `d` is taken off `n`. */
  lemma DivStep(n: int, d: int)
    requires d > 0 && n >= d
    ensures (n - d) / d == n / d - 1 && (n - d) % d == n % d
  {
    var q, r := n / d, n % d;
    assert n - d == d * (q - 1) + r;
    DivUnique(n - d, d, q - 1, r);
  }

  /** Euclidean division has one quotient and one remainder. */
  lemma DivUnique(n: int, d: int, q: int, r: int)
    requires d > 0 && 0 <= r < d && n == d * q + r
    ensures n / d == q && n % d == r
  {
    var q', r' := n / d, n % d;
    assert d * (q - q') == r' - r;
    if q > q' {
      MulAtLeast(d, q - q');
    } else if q < q' {
      MulAtLeast(d, q' - q);
    }
  }

  lemma MulAtLeast(d: int, k: int)
    requires d > 0 && k >= 1
    ensures d * k >= d
  {
    assert d * k == d + d * (k - 1);
  }

  // ---------------------------------------------------------------------
  // apply_delay: feedback (IIR) delay into a zero-filled buffer

  /** Sample `i` of `apply_delay`'s output. The buffer starts as zeros and the
      loop starts at `d`, so samples before `d` stay silent. With `d == 0` the
      loop reads slot `i` itself before writing it, and that slot is still 0. */
  function DelayAt(x: seq<real>, d: nat, fb: real, i: nat): real
    requires i < |x|
    decreases i
  {
    if i < d then 0.0
    else if d == 0 then x[i]
    else MixSample(x[i], fb, DelayAt(x, d, fb, i - d))
  }

  /** The output of `apply_delay` on `x` with `d` delay samples and feedback `fb`. */
  function Delayed(x: seq<real>, d: nat, fb: real): (y: seq<real>)
    ensures |y| == |x|
    ensures forall i :: 0 <= i < |x| && i < d ==> y[i] == 0.0
    ensures d > 0 ==> forall i :: d <= i < |x| ==> y[i] == x[i] + fb * y[i - d]
    ensures d == 0 ==> y == x
  {
    seq(|x|, i requires 0 <= i < |x| => DelayAt(x, d, fb, i))
  }

  method ApplyDelay(x: seq<real>, d: nat, fb: real) returns (y: seq<real>)
    ensures y == Delayed(x, d, fb)
  {
    var out := new real[|x|](_ => 0.0);
    var i := d;
    while i < |x|
      invariant d <= i
      invariant forall k :: 0 <= k < |x| ==> out[k] == (if k < i then DelayAt(x, d, fb, k) else 0.0)
    {
      out[i] := x[i] + fb * out[i - d];
      i := i + 1;
    }
    y := out[..];
    assert forall k :: 0 <= k < |x| ==> y[k] == Delayed(x, d, fb)[k];
  }

  /** The delay is recursive over its own output: it satisfies
      `y = gate(x) + fb * delayline(y)`. */
  lemma DelayedIsFeedback(x: seq<real>, d: nat, fb: real)
    requires d > 0
    ensures Delayed(x, d, fb) == Mix(Gated(x, d), DelayLine(Delayed(x, d, fb), d), fb)
  {
    var y := Delayed(x, d, fb);
    var z := Mix(Gated(x, d), DelayLine(y, d), fb);
    forall i | 0 <= i < |x|
      ensures y[i] == z[i]
    {
      if i >= d {
        assert y[i] == x[i] + fb * y[i - d];
      }
    }
  }

  /** ... and it is the only buffer that does. */
  lemma {:induction false} DelayedUnique(x: seq<real>, d: nat, fb: real, y: seq<real>)
    requires d > 0 && |y| == |x|
    requires y == Mix(Gated(x, d), DelayLine(y, d), fb)
    ensures y == Delayed(x, d, fb)
  {
    forall i | 0 <= i < |x|
      ensures y[i] == DelayAt(x, d, fb, i)
    {
      FixedPointAt(x, d, fb, y, i);
    }
  }

  lemma {:induction false} FixedPointAt(x: seq<real>, d: nat, fb: real, y: seq<real>, i: nat)
    requires d > 0 && |y| == |x| && i < |x|
    requires y == Mix(Gated(x, d), DelayLine(y, d), fb)
    ensures y[i] == DelayAt(x, d, fb, i)
    decreases i
  {
    if i >= d {
      FixedPointAt(x, d, fb, y, i - d);
      assert y[i] == MixSample(x[i], fb, y[i - d]);
    }
  }

  /** With `|fb| < 1` the feedback delay cannot grow without bound: an input
      bounded by `b` gives an output bounded by `b / (1 - |fb|)`. */
  lemma {:induction false} DelayedBounded(x: seq<real>, d: nat, fb: real, b: real)
    requires Abs(fb) < 1.0 && BoundedBy(x, b)
    ensures BoundedBy(Delayed(x, d, fb), b / (1.0 - Abs(fb)))
  {
    if |x| > 0 {
      assert Abs(x[0]) <= b;
      FeedbackGain(Abs(fb), b);
      FeedKeepsAtFixedPoint(fb, b, b / (1.0 - Abs(fb)));
    }
    forall i | 0 <= i < |x|
      ensures Abs(DelayAt(x, d, fb, i)) <= b / (1.0 - Abs(fb))
    {
      DelayAtBounded(x, d, fb, b, b / (1.0 - Abs(fb)), i);
    }
  }

  /** A step of the recurrence keeps samples within `k` when the input is within `b`. */
  ghost predicate FeedKeeps(fb: real, b: real, k: real) {
    forall u, v :: Abs(u) <= b && Abs(v) <= k ==> Abs(MixSample(u, fb, v)) <= k
  }

  /** `k >= b` with `b + |fb| * k == k` is such a bound. */
  lemma FeedKeepsAtFixedPoint(fb: real, b: real, k: real)
    requires b + Abs(fb) * k == k
    ensures FeedKeeps(fb, b, k)
  {
    forall u, v | Abs(u) <= b && Abs(v) <= k
      ensures Abs(MixSample(u, fb, v)) <= k
    {
      MixBound(u, v, fb, b, k);
    }
  }

  /** Any `k >= b` that a step of the recurrence keeps bounds every output sample. */
  lemma {:induction false} DelayAtBounded(x: seq<real>, d: nat, fb: real, b: real, k: real, i: nat)
    requires i < |x| && BoundedBy(x, b) && b <= k && FeedKeeps(fb, b, k)
    ensures Abs(DelayAt(x, d, fb, i)) <= k
    decreases i
  {
    assert Abs(x[i]) <= b;
    if i >= d && d > 0 {
      DelayAtBounded(x, d, fb, b, k, i - d);
    }
  }

  /** The geometric bound `k = b / (1 - a)` is a fixed point of `k = b + a*k`. */
  lemma FeedbackGain(a: real, b: real)
    requires 0.0 <= a < 1.0 && b >= 0.0
    ensures b <= b / (1.0 - a) && b + a * (b / (1.0 - a)) == b / (1.0 - a)
  {
    var k := b / (1.0 - a);
    assert k * (1.0 - a) == b;
    assert k >= 0.0;
    ProductMonotone(k, 0.0, a);
    assert b + a * k == k * (1.0 - a) + a * k;
  }

  /** The unit impulse at position `p` in a buffer of `n` samples. */
  function Impulse(n: nat, p: nat): seq<real> {
    seq(n, i requires 0 <= i < n => if i == p then 1.0 else 0.0)
  }

  function Pow(g: real, k: nat): real {
    if k == 0 then 1.0 else g * Pow(g, k - 1)
  }

  /** An impulse entering the feedback delay leaves a decaying train of
      repeats, one every `d` samples, the k-th scaled by `fb^k`. */
  lemma {:induction false} DelayImpulseTrain(n: nat, d: nat, fb: real, i: nat)
    requires d > 0 && i < n
    ensures DelayAt(Impulse(n, d), d, fb, i) == if i >= d && i % d == 0 then Pow(fb, i / d - 1) else 0.0
    decreases i
  {
    if i > d {
      DelayImpulseTrain(n, d, fb, i - d);
      DivStep(i, d);
    }
  }

  // ---------------------------------------------------------------------
  // apply_echo / apply_strong_echo: one echo read from the input (FIR)

  /** The output of `apply_echo`: the input plus a copy of the input delayed
      by `d` samples and scaled by `decay`. */
  function Echoed(x: seq<real>, d: nat, decay: real): (y: seq<real>)
    ensures |y| == |x|
    ensures forall i :: 0 <= i < |x| && i < d ==> y[i] == x[i]
    ensures forall i :: d <= i < |x| ==> y[i] == x[i] + decay * x[i - d]
  {
    Mix(x, DelayLine(x, d), decay)
  }

  method ApplyEcho(x: seq<real>, d: nat, decay: real) returns (y: seq<real>)
    ensures y == Echoed(x, d, decay)
  {
    var out := new real[|x|](k requires 0 <= k < |x| => x[k]);
    var i := d;
    while i < |x|
      invariant d <= i
      invariant forall k :: 0 <= k < |x| ==> out[k] == (if k < i then Echoed(x, d, decay)[k] else x[k])
    {
      assert Echoed(x, d, decay)[i] == x[i] + decay * x[i - d];
      out[i] := out[i] + decay * x[i - d];
      i := i + 1;
    }
    y := out[..];
    assert forall k :: 0 <= k < |x| ==> y[k] == Echoed(x, d, decay)[k];
  }

  /** `apply_strong_echo` repeats `apply_echo`'s loop; only its default
      parameters (0.7 s, 0.7) differ, and those reach the model as arguments. */
  method ApplyStrongEcho(x: seq<real>, d: nat, decay: real) returns (y: seq<real>)
    ensures y == Echoed(x, d, decay)
  {
    y := ApplyEcho(x, d, decay);
  }

  /** An impulse through the echo yields exactly one repeat, `d` samples
      later and scaled by `decay`: the echo never reads its own output. */
  lemma EchoImpulseSingleRepeat(n: nat, p: nat, d: nat, decay: real, i: nat)
    requires d > 0 && i < n
    ensures Echoed(Impulse(n, p), d, decay)[i]
            == (if i == p then 1.0 else 0.0) + (if i == p + d then decay else 0.0)
  {
  }

  /** An input bounded by `b` gives an echo bounded by `b * (1 + |decay|)`. */
  lemma EchoedBounded(x: seq<real>, d: nat, decay: real, b: real)
    requires BoundedBy(x, b)
    ensures BoundedBy(Echoed(x, d, decay), b + Abs(decay) * b)
  {
    var y := Echoed(x, d, decay);
    forall i | 0 <= i < |x|
      ensures Abs(y[i]) <= b + Abs(decay) * b
    {
      EchoSampleBounded(x, d, decay, b, i);
    }
  }

  lemma EchoSampleBounded(x: seq<real>, d: nat, decay: real, b: real, i: nat)
    requires BoundedBy(x, b) && i < |x|
    ensures Abs(Echoed(x, d, decay)[i]) <= b + Abs(decay) * b
  {
    assert Abs(x[i]) <= b;
    var prev := if i < d then 0.0 else x[i - d];
    assert Abs(prev) <= b;
    assert Echoed(x, d, decay)[i] == MixSample(x[i], decay, prev);
    MixBound(x[i], prev, decay, b, b);
  }

  // ---------------------------------------------------------------------
  // apply_chorus: read at a modulated, truncated index

  /** The index `apply_chorus` reads at sample `i`: `int(i - modulator[i])`
      with `modulator[i] = sin(2*pi*rate*i/sr) * (depth * sr)`; `int`
      truncates toward zero. */
  function ChorusIndex(w: Wave, sr: Rate, depth: real, rate: real, i: nat): (k: int)
    ensures var v := i as real - w(rate, i) * (depth * (sr as real));
            (v >= 0.0 ==> v - 1.0 < k as real <= v) && (v <= 0.0 ==> v <= k as real < v + 1.0)
    ensures depth == 0.0 ==> k == i
  {
    assert depth == 0.0 ==> w(rate, i) * (depth * (sr as real)) == 0.0;
    Trunc(i as real - w(rate, i) * (depth * (sr as real)))
  }

  /** The output of `apply_chorus`: each sample plus the input at its chorus
      index when that index lies inside the buffer. */
  function Chorused(x: seq<real>, w: Wave, sr: Rate, depth: real, rate: real): (y: seq<real>)
    ensures |y| == |x|
  {
    seq(|x|, i requires 0 <= i < |x| =>
      var k := ChorusIndex(w, sr, depth, rate, i);
      if 0 <= k < |x| then x[i] + x[k] else x[i])
  }

  method ApplyChorus(x: seq<real>, w: Wave, sr: Rate, depth: real, rate: real) returns (y: seq<real>)
    ensures y == Chorused(x, w, sr, depth, rate)
  {
    var out := new real[|x|](k requires 0 <= k < |x| => x[k]);
    var i := 0;
    while i < |x|
      invariant i <= |x|
      invariant forall k :: 0 <= k < |x| ==> out[k] == (if k < i then Chorused(x, w, sr, depth, rate)[k] else x[k])
    {
      var index := ChorusIndex(w, sr, depth, rate, i);
      if 0 <= index < |x| {
        out[i] := out[i] + x[index];
      }
      i := i + 1;
    }
    y := out[..];
  }

  /** With no modulation depth every sample reads itself: the chorus doubles
      the signal. */
  lemma ChorusWithoutDepthDoubles(x: seq<real>, w: Wave, sr: Rate, rate: real)
    ensures Chorused(x, w, sr, 0.0, rate) == Scaled(x, 2.0)
  {
    forall i | 0 <= i < |x|
      ensures ChorusIndex(w, sr, 0.0, rate, i) == i
    {
      assert w(rate, i) * (0.0 * (sr as real)) == 0.0;
    }
  }

  /** Truncation, not flooring: where the modulated position `i - m[i]` lies
      in (-1, 0), `int` gives 0, which is inside the buffer, so sample `i`
      gains the first input sample (flooring would give -1 and add nothing). */
  lemma ChorusTruncatesTowardZero(x: seq<real>, w: Wave, sr: Rate, depth: real, rate: real, i: nat)
    requires i < |x|
    requires i as real < w(rate, i) * (depth * (sr as real)) < i as real + 1.0
    ensures Chorused(x, w, sr, depth, rate)[i] == x[i] + x[0]
  {
    var v := i as real - w(rate, i) * (depth * (sr as real));
    assert -1.0 < v < 0.0;
    var k := Trunc(v);
    assert Abs(k as real) < 1.0;
    assert k == 0;
    assert ChorusIndex(w, sr, depth, rate, i) == k;
  }

  /** An input bounded by `b` gives a chorus bounded by `2 * b`. */
  lemma ChorusedBounded(x: seq<real>, w: Wave, sr: Rate, depth: real, rate: real, b: real)
    requires BoundedBy(x, b)
    ensures BoundedBy(Chorused(x, w, sr, depth, rate), 2.0 * b)
  {
    var y := Chorused(x, w, sr, depth, rate);
    forall i | 0 <= i < |x|
      ensures Abs(y[i]) <= 2.0 * b
    {
      var k := ChorusIndex(w, sr, depth, rate, i);
      if 0 <= k < |x| {
        assert Abs(x[k]) <= b;
      }
      assert Abs(x[i]) <= b;
    }
  }

  // ---------------------------------------------------------------------
  // apply_flanger_voice: bounded lookback of at most max_delay samples

  /** The lookback `apply_flanger_voice` uses at sample `i`:
      `int(0.5 * (1 + sin(2*pi*0.25*i/sr)) * max_delay)`. */
  function FlangerDelay(w: Wave, maxDelay: nat, i: nat): (k: int)
    ensures 0 <= k <= maxDelay
  {
    var m := 0.5 * (1.0 + w(0.25, i));
    assert 0.0 <= m <= 1.0;
    ProductMonotone(maxDelay as real, m, 1.0);
    ProductMonotone(maxDelay as real, 0.0, m);
    var v := m * (maxDelay as real);
    assert 0.0 <= v <= maxDelay as real;
    Trunc(v)
  }

  /** The output of `apply_flanger_voice`. */
  function Flanged(x: seq<real>, w: Wave, maxDelay: nat): (y: seq<real>)
    ensures |y| == |x|
    ensures forall i :: 0 <= i < |x| && i < maxDelay ==> y[i] == x[i]
  {
    seq(|x|, i requires 0 <= i < |x| =>
      if i < maxDelay then x[i] else x[i] + 0.5 * x[i - FlangerDelay(w, maxDelay, i)])
  }

  method ApplyFlanger(x: seq<real>, w: Wave, maxDelay: nat) returns (y: seq<real>)
    ensures y == Flanged(x, w, maxDelay)
  {
    var out := new real[|x|](k requires 0 <= k < |x| => x[k]);
    var i := maxDelay;
    while i < |x|
      invariant maxDelay <= i
      invariant forall k :: 0 <= k < |x| ==> out[k] == (if k < i then Flanged(x, w, maxDelay)[k] else x[k])
    {
      var delay := FlangerDelay(w, maxDelay, i);
      out[i] := out[i] + 0.5 * x[i - delay];
      i := i + 1;
    }
    y := out[..];
  }

  /** Past the first `max_delay` samples, the flanger reads at most `max_delay`
      samples back and never past the current sample. */
  lemma FlangerReadsBehind(x: seq<real>, w: Wave, maxDelay: nat, i: nat)
    requires maxDelay <= i < |x|
    ensures var j := i - FlangerDelay(w, maxDelay, i);
            i - maxDelay <= j <= i && Flanged(x, w, maxDelay)[i] == x[i] + 0.5 * x[j]
  {
  }

  /** An input bounded by `b` gives a flanger output bounded by `1.5 * b`. */
  lemma FlangedBounded(x: seq<real>, w: Wave, maxDelay: nat, b: real)
    requires BoundedBy(x, b)
    ensures BoundedBy(Flanged(x, w, maxDelay), 1.5 * b)
  {
    var y := Flanged(x, w, maxDelay);
    forall i | 0 <= i < |x|
      ensures Abs(y[i]) <= 1.5 * b
    {
      assert Abs(x[i]) <= b;
      if i >= maxDelay {
        var j := i - FlangerDelay(w, maxDelay, i);
        assert Abs(x[j]) <= b;
      }
    }
  }

  // ---------------------------------------------------------------------
  // apply_reversed_voice: the slice audio_data[::-1]

  function Reversed(x: seq<real>): (y: seq<real>)
    ensures |y| == |x|
  {
    seq(|x|, i requires 0 <= i < |x| => x[|x| - 1 - i])
  }

  lemma ReversedInvolution(x: seq<real>)
    ensures Reversed(Reversed(x)) == x
  {
  }

  /** Reversal keeps every sample, so it keeps any bound on them. */
  lemma ReversedBounded(x: seq<real>, b: real)
    requires BoundedBy(x, b)
    ensures BoundedBy(Reversed(x), b)
  {
    forall i | 0 <= i < |x|
      ensures Abs(Reversed(x)[i]) <= b
    {
      assert Reversed(x)[i] == x[|x| - 1 - i];
    }
  }

  lemma ReversedAppend(a: seq<real>, b: seq<real>)
    ensures Reversed(a + b) == Reversed(b) + Reversed(a)
  {
  }

  /** Reversal rearranges the samples and neither drops nor adds any. */
  lemma {:induction false} ReversedPermutes(x: seq<real>)
    ensures multiset(Reversed(x)) == multiset(x)
  {
    if |x| > 0 {
      ReversedAppend([x[0]], x[1..]);
      assert [x[0]] + x[1..] == x;
      ReversedPermutes(x[1..]);
    }
  }

  // ---------------------------------------------------------------------
  // apply_stuttering_voice: each segment followed by its first half

  /** The stuttered buffer for a positive segment length `s`: for each
      segment `x[k*s .. k*s + s]` (cut at the end), the segment followed by its
      first `int(s / 2)` samples (cut at the end too). */
  function Stuttered(x: seq<real>, s: nat): (y: seq<real>)
    requires s > 0
    ensures |x| <= |y| <= 2 * |x|
    decreases |x|
  {
    if |x| == 0 then []
    else
      var c := Min(s, |x|);
      x[..c] + x[..Min(s / 2, |x|)] + Stuttered(x[c..], s)
  }

  method ApplyStutter(x: seq<real>, s: int) returns (r: Result<seq<real>>)
    ensures s == 0 ==> r == Err(RangeStepZero)
    ensures s < 0 ==> r == Ok([])
    ensures s > 0 ==> r == Ok(Stuttered(x, s))
  {
    if s == 0 {
      return Err(RangeStepZero);
    } else if s < 0 {
      return Ok([]);
    }
    var out := StutterSegments(x, s);
    return Ok(out);
  }

  /** The loop of `apply_stuttering_voice` for a positive segment length:
      the list grows by each segment and then by its first half. */
  method StutterSegments(x: seq<real>, s: nat) returns (out: seq<real>)
    requires s > 0
    ensures out == Stuttered(x, s)
  {
    out := [];
    var i: nat := 0;
    ghost var rest := x;
    assert x[Min(i, |x|)..] == x;
    assert out + Stuttered(rest, s) == Stuttered(x, s);
    while i < |x|
      invariant rest == x[Min(i, |x|)..]
      invariant out + Stuttered(rest, s) == Stuttered(x, s)
    {
      StutterExtend(x, s, i, out);
      out := out + (x[i..Min(i + s, |x|)] + x[i..Min(i + s / 2, |x|)]);
      rest := x[Min(i + s, |x|)..];
      assert out + Stuttered(rest, s) == Stuttered(x, s);
      i := i + s;
    }
    StutterDone(x, s, out, rest);
  }

  lemma StutterDone(x: seq<real>, s: nat, out: seq<real>, rest: seq<real>)
    requires s > 0 && rest == x[|x|..]
    requires out + Stuttered(rest, s) == Stuttered(x, s)
    ensures out == Stuttered(x, s)
  {
    assert rest == [];
    assert out + [] == out;
  }

  /** The loop invariant survives one turn. */
  lemma StutterExtend(x: seq<real>, s: nat, i: nat, out: seq<real>)
    requires s > 0 && i < |x|
    requires out + Stuttered(x[i..], s) == Stuttered(x, s)
    ensures out + (x[i..Min(i + s, |x|)] + x[i..Min(i + s / 2, |x|)])
            + Stuttered(x[Min(i + s, |x|)..], s) == Stuttered(x, s)
  {
    StutterStep(x, s, i);
    AppendAssoc(out, x[i..Min(i + s, |x|)] + x[i..Min(i + s / 2, |x|)], Stuttered(x[Min(i + s, |x|)..], s));
  }

  lemma AppendAssoc(a: seq<real>, b: seq<real>, c: seq<real>)
    ensures (a + b) + c == a + (b + c)
  {
  }

  /** One turn of the loop peels one segment and its half off the rest. */
  lemma StutterStep(x: seq<real>, s: nat, i: nat)
    requires s > 0 && i < |x|
    ensures Stuttered(x[i..], s)
         == x[i..Min(i + s, |x|)] + x[i..Min(i + s / 2, |x|)] + Stuttered(x[Min(i + s, |x|)..], s)
  {
    var rest := x[i..];
    var c := Min(s, |rest|);
    assert rest[..c] == x[i..Min(i + s, |x|)];
    assert rest[..Min(s / 2, |rest|)] == x[i..Min(i + s / 2, |x|)];
    assert rest[c..] == x[Min(i + s, |x|)..];
  }

  /** Output length: every full segment grows from `s` to `s + s/2`; the final
      partial segment of `r` samples grows by `min(r, s/2)`. */
  lemma {:induction false} StutterLength(x: seq<real>, s: nat)
    requires s > 0
    ensures |Stuttered(x, s)| == (|x| / s) * (s + s / 2) + |x| % s + Min(|x| % s, s / 2)
    decreases |x|
  {
    var n := |x|;
    if n >= s {
      var rest := |Stuttered(x[s..], s)|;
      assert |Stuttered(x, s)| == s + s / 2 + rest;
      StutterLength(x[s..], s);
      DivStep(n, s);
      SegmentsAdd(n / s, s + s / 2);
    } else if n > 0 {
      DivUnique(n, s, 0, n);
      assert |Stuttered(x, s)| == n + Min(s / 2, n) + |Stuttered(x[n..], s)|;
    } else {
      DivUnique(n, s, 0, 0);
    }
  }

  lemma SegmentsAdd(q: int, m: int)
    ensures (q - 1) * m + m == q * m
  {
  }

  /** 100 samples in segments of 10 become 150 samples. */
  lemma StutterHundredByTen(x: seq<real>)
    requires |x| == 100
    ensures |Stuttered(x, 10)| == 150
  {
    StutterLength(x, 10);
  }

  /** Removes the repeated half-segments again. */
  function Unstutter(y: seq<real>, s: nat): seq<real>
    requires s > 0
    decreases |y|
  {
    var h := s / 2;
    if |y| == 0 then []
    else if |y| >= s + h then y[..s] + Unstutter(y[s + h..], s)
    else if |y| <= 2 * h then y[..|y| / 2]
    else y[..|y| - h]
  }

  /** Stuttering keeps every sample, in order: dropping the repeats gives
      back the input. */
  lemma {:induction false} UnstutterStuttered(x: seq<real>, s: nat)
    requires s > 0
    ensures Unstutter(Stuttered(x, s), s) == x
    decreases |x|
  {
    var y := Stuttered(x, s);
    var h := s / 2;
    if |x| >= s {
      var tail := Stuttered(x[s..], s);
      assert y == x[..s] + x[..h] + tail;
      assert y[..s] == x[..s];
      assert y[s + h..] == tail;
      UnstutterStuttered(x[s..], s);
      assert x[..s] + x[s..] == x;
    } else if |x| > 0 {
      assert Stuttered(x[|x|..], s) == [];
      assert y == x + x[..Min(h, |x|)];
      assert y[..|x|] == x;
    }
  }

  // ---------------------------------------------------------------------
  // Amplitude: clipping, apply_distorted_voice, apply_reverb

  /** `np.clip(x * g, -1, 1)`. */
  function ClipScaled(x: seq<real>, g: real): (y: seq<real>)
    ensures |y| == |x|
    ensures BoundedBy(y, 1.0)
    ensures forall i :: 0 <= i < |x| && -1.0 <= x[i] * g <= 1.0 ==> y[i] == x[i] * g
  {
    seq(|x|, i requires 0 <= i < |x| => ClipGain(x[i], g))
  }

  /** One sample of `np.clip(v * g, -1, 1)`. */
  function ClipGain(v: real, g: real): (r: real)
    ensures -1.0 <= r <= 1.0
    ensures -1.0 <= v * g <= 1.0 ==> r == v * g
  {
    Clip(v * g)
  }

  /** Clipping an already clipped buffer at unit gain changes nothing. */
  lemma ClipScaledIdempotent(x: seq<real>, g: real)
    ensures ClipScaled(ClipScaled(x, g), 1.0) == ClipScaled(x, g)
  {
  }

  /** `apply_distorted_voice`: gain 10, then clip. */
  function DistortedVoice(x: seq<real>): (y: seq<real>)
    ensures |y| == |x|
    ensures BoundedBy(y, 1.0)
    ensures forall i :: 0 <= i < |x| && -0.1 <= x[i] <= 0.1 ==> y[i] == 10.0 * x[i]
  {
    ClipScaled(x, 10.0)
  }

  /** `apply_reverb`: the pre-emphasised buffer, scaled by `amount` and clipped.
      Whatever pre-emphasis returns, the result stays in [-1, 1]. */
  function Reverb(preemphasis: seq<real> -> seq<real>, x: seq<real>, amount: real): (y: seq<real>)
    ensures BoundedBy(y, 1.0)
  {
    ClipScaled(preemphasis(x), amount)
  }

  // ---------------------------------------------------------------------
  // Amplitude modulation: apply_tremolo_voice, ring modulation

  /** `apply_tremolo_voice`: the input times the 5 Hz envelope `0.5 * (1 + sin)`. */
  function Tremolo(x: seq<real>, w: Wave): (y: seq<real>)
    ensures |y| == |x|
  {
    seq(|x|, i requires 0 <= i < |x| => Gain(x[i], 0.5 * (1.0 + w(5.0, i))))
  }

  /** The tremolo envelope lies in [0, 1]: it only attenuates and never flips
      a sample's sign. */
  lemma TremoloAttenuates(x: seq<real>, w: Wave)
    ensures forall i :: 0 <= i < |x| ==> Abs(Tremolo(x, w)[i]) <= Abs(x[i]) && Tremolo(x, w)[i] * x[i] >= 0.0
  {
    forall i | 0 <= i < |x|
      ensures Abs(Tremolo(x, w)[i]) <= Abs(x[i]) && Tremolo(x, w)[i] * x[i] >= 0.0
    {
      var e := 0.5 * (1.0 + w(5.0, i));
      assert 0.0 <= e <= 1.0;
      assert Tremolo(x, w)[i] == Gain(x[i], e);
      GainAttenuates(x[i], e);
      GainKeepsSign(x[i], e);
    }
  }

  /** Ring modulation: the input times the carrier `sin(2*pi*f*t)`. */
  function RingModulated(x: seq<real>, w: Wave, f: real): (y: seq<real>)
    ensures |y| == |x|
  {
    seq(|x|, i requires 0 <= i < |x| => Gain(x[i], w(f, i)))
  }

  /** A unit carrier never amplifies a sample. */
  lemma RingModulatedAttenuates(x: seq<real>, w: Wave, f: real)
    ensures forall i :: 0 <= i < |x| ==> Abs(RingModulated(x, w, f)[i]) <= Abs(x[i])
  {
    forall i | 0 <= i < |x|
      ensures Abs(RingModulated(x, w, f)[i]) <= Abs(x[i])
    {
      assert RingModulated(x, w, f)[i] == Gain(x[i], w(f, i));
      GainAttenuates(x[i], w(f, i));
    }
  }

  // ---------------------------------------------------------------------
  // increase_volume: the one primitive that scales its argument in place

  /** Multiplies the caller's buffer in place and returns that same buffer. */
  method IncreaseVolume(buf: array<real>, factor: real) returns (r: array<real>)
    modifies buf
    ensures r == buf
    ensures buf[..] == Scaled(old(buf[..]), factor)
  {
    forall i | 0 <= i < buf.Length {
      buf[i] := buf[i] * factor;
    }
    r := buf;
    assert forall i :: 0 <= i < buf.Length ==> buf[..][i] == Scaled(old(buf[..]), factor)[i];
  }

  /** Scaling by a non-zero factor is undone by scaling by its inverse. */
  lemma ScaledInverse(x: seq<real>, g: real)
    requires g != 0.0
    ensures Scaled(Scaled(x, g), 1.0 / g) == x
  {
    forall i | 0 <= i < |x|
      ensures Scaled(Scaled(x, g), 1.0 / g)[i] == x[i]
    {
      assert x[i] * g * (1.0 / g) == x[i] * (g * (1.0 / g));
    }
  }
}
