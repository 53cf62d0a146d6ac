/** Peaking-EQ coefficient generation for one band of the graphic equalizer
    (components/snapclient/graphic_eq.h, eq_init, lines 47-83).

    Arithmetic is exact over `real`.  The C library calls `sinf`, `cosf` and
    `powf` are not modelled: they are parameters (a `MathLib` value), so every
    fact proved here holds whatever values those functions return. */
module Coefficients {

  /** The value of M_PI. */
  const Pi: real := 3.141592653589793

  /** The libm functions the generator calls; their float results are left open. */
  datatype MathLib = MathLib(sinf: real -> real, cosf: real -> real, powf: (real, real) -> real)

  /** One second-order section in the stored order (b0, b1, b2, a1, a2); a0 is 1. */
  datatype Biquad = Biquad(b0: real, b1: real, b2: real, a1: real, a2: real)

  /** The pass-through section that a 0 dB band is given. */
  const Identity: Biquad := Biquad(1.0, 0.0, 0.0, 0.0, 0.0)

  /** Float division where the divisor may be zero.  IEEE gives an infinity or
      NaN there; the model has no such values and yields 0 instead. */
  function FDiv(x: real, d: real): real
  {
    if d == 0.0 then 0.0 else x / d
  }

  /** `f / (fs / 2)`: the frequency as a fraction of the Nyquist frequency. */
  function NormFreq(f: real, sr: real): real
    requires sr > 0.0
  {
    f / (sr / 2.0)
  }

  /** The angle handed to `sinf` and `cosf`: `2·π·NormFreq`, which is 4πf/fs
      rather than the textbook 2πf/fs. */
  function Omega(f: real, sr: real): (w: real)
    requires sr > 0.0
    ensures w * sr == 4.0 * Pi * f
  {
    var n := NormFreq(f, sr);
    assert n * (sr / 2.0) == f;
    assert (2.0 * Pi * n) * sr == 4.0 * Pi * (n * (sr / 2.0));
    2.0 * Pi * n
  }

  /** `alpha = sin(w) / (2·Q)`. */
  function Alpha(m: MathLib, f: real, q: real, sr: real): real
    requires sr > 0.0 && q > 0.0
  {
    m.sinf(Omega(f, sr)) / (2.0 * q)
  }

  /** `A = 10^(gain_db / 20)`. */
  function LinearGain(m: MathLib, g: real): real
  {
    m.powf(10.0, g / 20.0)
  }

  /** The common divisor `a0 = 1 + alpha / A`. */
  function A0(m: MathLib, f: real, q: real, g: real, sr: real): real
    requires sr > 0.0 && q > 0.0
  {
    1.0 + FDiv(Alpha(m, f, q, sr), LinearGain(m, g))
  }

  /** The section eq_init stores for a band with centre frequency `f`, quality
      `q` and gain `g` dB at sample rate `sr`: the identity at 0 dB, otherwise
      the five peaking coefficients, each divided by the same `a0`. */
  function Design(m: MathLib, f: real, q: real, g: real, sr: real): (c: Biquad)
    requires sr > 0.0 && q > 0.0
    ensures g == 0.0 ==> c == Identity
    ensures g != 0.0 ==> c.b1 == c.a1
  {
    if g == 0.0 then Identity
    else
      var w := Omega(f, sr);
      var alpha := Alpha(m, f, q, sr);
      var a := LinearGain(m, g);
      var a0 := A0(m, f, q, g, sr);
      Biquad(FDiv(1.0 + alpha * a, a0),
             FDiv(-2.0 * m.cosf(w), a0),
             FDiv(1.0 - alpha * a, a0),
             FDiv(-2.0 * m.cosf(w), a0),
             FDiv(1.0 - FDiv(alpha, a), a0))
  }

  /** The peaking section of a band with nonzero gain, in terms of alpha, A,
      a0 and the value b1 and a1 share before normalisation. */
  lemma DesignPeaking(m: MathLib, f: real, q: real, g: real, sr: real, alpha: real, a: real, a0: real, c1: real)
    requires sr > 0.0 && q > 0.0 && g != 0.0
    requires alpha == Alpha(m, f, q, sr) && a == LinearGain(m, g) && a0 == 1.0 + FDiv(alpha, a)
    requires c1 == -2.0 * m.cosf(Omega(f, sr))
    ensures Design(m, f, q, g, sr)
              == Biquad(FDiv(1.0 + alpha * a, a0), FDiv(c1, a0), FDiv(1.0 - alpha * a, a0),
                        FDiv(c1, a0), FDiv(1.0 - FDiv(alpha, a), a0))
  {
  }

  /** All five coefficients of a nonzero-gain band are divided by the same a0:
      multiplied back by a0 = 1 + alpha/A, each gives its unnormalised value
      (1 + alpha·A, -2·cos w, 1 - alpha·A, -2·cos w, 1 - alpha/A). */
  lemma DesignNormalised(m: MathLib, f: real, q: real, g: real, sr: real)
    requires sr > 0.0 && q > 0.0
    requires g != 0.0 && A0(m, f, q, g, sr) != 0.0
    ensures var c := Design(m, f, q, g, sr);
            var alpha, a := Alpha(m, f, q, sr), LinearGain(m, g);
            var a0, c1 := 1.0 + FDiv(alpha, a), -2.0 * m.cosf(Omega(f, sr));
            && c.b0 * a0 == 1.0 + alpha * a
            && c.b1 * a0 == c1
            && c.b2 * a0 == 1.0 - alpha * a
            && c.a1 * a0 == c1
            && c.a2 * a0 == 1.0 - FDiv(alpha, a)
  {
  }

  /** Dividing three numerators by one divisor divides their sum. */
  lemma FDivSum(x: real, y: real, z: real, d: real)
    requires d != 0.0
    ensures FDiv(x, d) + FDiv(y, d) + FDiv(z, d) == FDiv(x + y + z, d)
  {
    var p, q, r := FDiv(x, d), FDiv(y, d), FDiv(z, d);
    assert (p + q + r) * d == p * d + q * d + r * d;
    assert FDiv(x + y + z, d) * d == x + y + z;
    MulCancel(p + q + r, FDiv(x + y + z, d), d);
  }

  /** A nonzero factor cancels. */
  lemma MulCancel(u: real, v: real, d: real)
    requires d != 0.0 && u * d == v * d
    ensures u == v
  {
    assert (u - v) * d == 0.0;
  }

  /** Every designed section has unity gain at DC: the numerator and the
      denominator of its transfer function agree at z = 1, because b1 equals a1
      and b0 + b2 equals a0 + a2 before normalisation. */
  lemma DesignUnityAtDc(m: MathLib, f: real, q: real, g: real, sr: real)
    requires sr > 0.0 && q > 0.0
    requires g != 0.0 ==> A0(m, f, q, g, sr) != 0.0
    ensures var c := Design(m, f, q, g, sr); c.b0 + c.b1 + c.b2 == 1.0 + c.a1 + c.a2
  {
    var c := Design(m, f, q, g, sr);
    if g != 0.0 {
      var w := Omega(f, sr);
      var alpha := Alpha(m, f, q, sr);
      var a := LinearGain(m, g);
      var t := FDiv(alpha, a);
      var a0 := A0(m, f, q, g, sr);
      assert a0 == 1.0 + t;
      FDivSum(1.0 + alpha * a, -2.0 * m.cosf(w), 1.0 - alpha * a, a0);
      FDivSum(a0, -2.0 * m.cosf(w), 1.0 - t, a0);
      assert FDiv(a0, a0) == 1.0 by { MulCancel(FDiv(a0, a0), 1.0, a0); }
      assert (1.0 + alpha * a) + -2.0 * m.cosf(w) + (1.0 - alpha * a)
          == a0 + -2.0 * m.cosf(w) + (1.0 - t);
    }
  }

  /** The boost relation of a designed section: `b0 - b2 == A²·(1 - a2)`, so the
      ratio of the numerator's to the denominator's swing, which is the section's
      gain at its own centre angle, is A² where A = 10^(gain_db/20). */
  lemma DesignPeakRatio(m: MathLib, f: real, q: real, g: real, sr: real)
    requires sr > 0.0 && q > 0.0
    requires g != 0.0 && A0(m, f, q, g, sr) != 0.0
    ensures var c := Design(m, f, q, g, sr); var a := LinearGain(m, g);
            c.b0 - c.b2 == a * a * (1.0 - c.a2)
  {
    var c := Design(m, f, q, g, sr);
    var alpha := Alpha(m, f, q, sr);
    var a := LinearGain(m, g);
    var t := FDiv(alpha, a);
    var a0 := A0(m, f, q, g, sr);
    // Both sides, multiplied by a0, equal 2·alpha·A.
    assert (c.b0 - c.b2) * a0 == 2.0 * alpha * a;
    assert (1.0 - c.a2) * a0 == a0 - (1.0 - t);
    assert a0 - (1.0 - t) == 2.0 * t;
    assert a * a * (2.0 * t) == 2.0 * alpha * a by {
      if a != 0.0 {
        assert t * a == alpha;
      }
    }
    assert (a * a * (1.0 - c.a2)) * a0 == a * a * ((1.0 - c.a2) * a0);
    MulCancel(c.b0 - c.b2, a * a * (1.0 - c.a2), a0);
  }
}
