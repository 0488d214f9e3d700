/** Sample-level vocabulary shared by the effect primitives and the presets:
    absolute value, Python's `int()` on a float, `np.clip(v, -1, 1)`, the sine
    oscillator the effects are given, and the delay-line views of a buffer. */
module Signal {

  /** The range every sine oscillator stays in. */
  ghost predicate UnitRange(w: (real, nat) -> real) {
    forall f: real, i: nat :: -1.0 <= w(f, i) <= 1.0
  }

  /** The oscillator `sin(2*pi*f*i/sr)` at the buffer's own sample rate, as a
      function of the frequency `f` in Hz and the sample index `i`. Its values
      come from floating-point sine and are taken as given, except that they
      lie in [-1, 1]. */
  type Wave = w: (real, nat) -> real | UnitRange(w) witness (f: real, i: nat) => 0.0

  /** A sample rate in samples per second. At rate 0 the source's
      `np.arange(n) / sr` is not a number and `int()` of it raises. */
  type Rate = r: nat | r > 0 witness 1

  function Min(a: int, b: int): (m: int)
    ensures m <= a && m <= b && (m == a || m == b)
  {
    if a <= b then a else b
  }

  function Abs(v: real): (r: real)
    ensures r >= 0.0 && (r == v || r == -v)
  {
    if v < 0.0 then -v else v
  }

  /** Python's `int(v)` on a float: truncation toward zero, so the integer of
      largest magnitude not exceeding `v`'s magnitude, with `v`'s sign. */
  function Trunc(v: real): (k: int)
    ensures Abs(k as real) <= Abs(v) < Abs(k as real) + 1.0
    ensures v >= 0.0 ==> k >= 0
    ensures v <= 0.0 ==> k <= 0
  {
    if v >= 0.0 then v.Floor else -((-v).Floor)
  }

  /** `np.clip(v, -1, 1)`: the point of [-1, 1] nearest to `v`. */
  function Clip(v: real): (r: real)
    ensures -1.0 <= r <= 1.0
    ensures -1.0 <= v <= 1.0 ==> r == v
    ensures v > 1.0 ==> r == 1.0
    ensures v < -1.0 ==> r == -1.0
    ensures Abs(r) <= Abs(v)
  {
    if v < -1.0 then -1.0 else if v > 1.0 then 1.0 else v
  }

  /** One sample `v` multiplied by the gain `g`. */
  function Gain(v: real, g: real): real {
    v * g
  }

  /** Element-wise `x * g`, numpy's scalar broadcast. */
  function Scaled(x: seq<real>, g: real): seq<real> {
    seq(|x|, i requires 0 <= i < |x| => Gain(x[i], g))
  }

  /** One sample of `a + g * b`. */
  function MixSample(u: real, g: real, v: real): real {
    u + g * v
  }

  /** Element-wise `a + g * b` of two buffers of one length. */
  function Mix(a: seq<real>, b: seq<real>, g: real): seq<real>
    requires |a| == |b|
  {
    seq(|a|, i requires 0 <= i < |a| => MixSample(a[i], g, b[i]))
  }

  /** The buffer seen through a delay line of `d` samples: zeros for the
      first `d` samples, then `x` shifted right, cut to `x`'s length. */
  function DelayLine(x: seq<real>, d: nat): seq<real> {
    seq(|x|, i requires 0 <= i < |x| => if i < d then 0.0 else x[i - d])
  }

  /** The buffer with its first `d` samples silenced. */
  function Gated(x: seq<real>, d: nat): seq<real> {
    seq(|x|, i requires 0 <= i < |x| => if i < d then 0.0 else x[i])
  }

  /** Every sample of `x` has magnitude at most `b`. */
  ghost predicate BoundedBy(x: seq<real>, b: real) {
    forall i :: 0 <= i < |x| ==> Abs(x[i]) <= b
  }

  lemma AbsOfProduct(a: real, b: real)
    ensures Abs(a * b) == Abs(a) * Abs(b)
  {
    if a < 0.0 && b < 0.0 {
      assert a * b == (-a) * (-b);
    } else if a < 0.0 {
      assert -(a * b) == (-a) * b;
    } else if b < 0.0 {
      assert -(a * b) == a * (-b);
    }
  }

  lemma ProductMonotone(a: real, u: real, v: real)
    requires a >= 0.0 && u <= v
    ensures a * u <= a * v
  {
    assert a * v - a * u == a * (v - u);
  }

  /** `|a + g*b| <= A + |g|*B` whenever `|a| <= A` and `|b| <= B`. */
  lemma MixBound(a: real, b: real, g: real, ba: real, bb: real)
    requires Abs(a) <= ba && Abs(b) <= bb
    ensures Abs(MixSample(a, g, b)) <= ba + Abs(g) * bb
  {
    AbsOfProduct(g, b);
    ProductMonotone(Abs(g), Abs(b), bb);
  }

  /** A gain of magnitude at most one never amplifies a sample. */
  lemma GainAttenuates(v: real, g: real)
    requires -1.0 <= g <= 1.0
    ensures Abs(Gain(v, g)) <= Abs(v)
  {
    var a := Abs(v);
    ProductMonotone(a, -1.0, g);
    ProductMonotone(a, g, 1.0);
    assert -a <= a * g <= a;
    if v < 0.0 {
      assert Gain(v, g) == -(a * g);
    } else {
      assert Gain(v, g) == a * g;
    }
  }

  /** A non-negative gain keeps a sample's sign. */
  lemma GainKeepsSign(v: real, g: real)
    requires g >= 0.0
    ensures Gain(v, g) * v >= 0.0
  {
    assert v * g * v == g * (v * v);
    ProductMonotone(g, 0.0, v * v);
  }
}
