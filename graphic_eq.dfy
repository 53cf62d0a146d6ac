/** The 10-band graphic equalizer (components/snapclient/graphic_eq.h): the
    `graphic_eq_t` state as a class over fixed-size arrays, and its entry points
    eq_init, eq_process_stereo_int16, set_eq_band, apply_eq_preset and enable_eq
    as methods that update that state in place. */
module GraphicEq {
  import opened Coefficients
  import opened Cascade

  /** EQ_BANDS. */
  const Bands: nat := 10

  const MinGainDb: real := -15.0
  const MaxGainDb: real := 15.0

  /** The sample rate of the static initialiser. */
  const DefaultSampleRate: u32 := 44100

  /** The "Subwoofer Boost" gains, lowest band first; also the initial gains. */
  const SubwooferBoostGains: seq<real> := [6.0, 4.0, 2.0, -1.0, -3.0, -1.0, 0.0, -2.0, 0.0, 3.0]

  const FlatGains: seq<real> := [0.0, 0.0, 0.0, 0.0, 0.0, 0.0, 0.0, 0.0, 0.0, 0.0]

  type u32 = x: int | 0 <= x < 0x1_0000_0000

  /** What set_eq_band reports: success, or which check rejected the call. */
  datatype Status = Ok | InvalidBandIndex | InvalidGain

  /** Every gain of both preset tables lies within the accepted range. */
  lemma PresetGainsInRange()
    ensures |SubwooferBoostGains| == Bands && |FlatGains| == Bands
    ensures forall b :: 0 <= b < Bands ==> MinGainDb <= SubwooferBoostGains[b] <= MaxGainDb
    ensures forall b :: 0 <= b < Bands ==> MinGainDb <= FlatGains[b] <= MaxGainDb
  {
  }

  /** Row `b` of a coefficient array, as a section. */
  ghost function SectionOf(a: array2<real>, b: int): Biquad
    reads a
    requires 0 <= b < a.Length0 && a.Length1 == 5
  {
    Biquad(a[b, 0], a[b, 1], a[b, 2], a[b, 3], a[b, 4])
  }

  /** All rows of a coefficient array, as sections. */
  ghost function SectionsOf(a: array2<real>): seq<Biquad>
    reads a
    requires a.Length1 == 5
  {
    seq(a.Length0, b requires 0 <= b < a.Length0 reads a => SectionOf(a, b))
  }

  /** All rows of a delay-line array, as taps. */
  ghost function LineOf(a: array2<real>): seq<Taps>
    reads a
    requires a.Length1 == 2
  {
    seq(a.Length0, b requires 0 <= b < a.Length0 reads a => Taps(a[b, 0], a[b, 1]))
  }

  /** The equalizer state, `graphic_eq_t`. */
  class Equalizer {
    const centerFreq: seq<real> := [50.0, 80.0, 125.0, 200.0, 315.0, 500.0, 800.0, 1250.0, 2000.0, 5000.0]
    const qFactor: seq<real> := [1.0, 1.0, 1.0, 1.0, 1.0, 1.0, 1.0, 1.0, 1.0, 1.0]
    const gainDb: array<real>
    /** Row b holds (b0, b1, b2, a1, a2) of band b. */
    const coeffs: array2<real>
    /** Row b holds (w0, w1) of band b, left channel. */
    const delayLeft: array2<real>
    /** Row b holds (w0, w1) of band b, right channel. */
    const delayRight: array2<real>
    var enabled: bool
    var sampleRate: u32
    /** The sinf, cosf and powf the firmware links against. */
    const libm: MathLib

    /** Shapes of the arrays, no aliasing between them, a usable sample rate,
        and every gain in [-15, 15]. */
    ghost predicate Valid()
      reads this, gainDb
    {
      && gainDb.Length == Bands
      && coeffs.Length0 == Bands && coeffs.Length1 == 5
      && delayLeft.Length0 == Bands && delayLeft.Length1 == 2
      && delayRight.Length0 == Bands && delayRight.Length1 == 2
      && coeffs != delayLeft && coeffs != delayRight && delayLeft != delayRight
      && sampleRate > 0
      && forall b :: 0 <= b < Bands ==> MinGainDb <= gainDb[b] <= MaxGainDb
    }

    /** Every band's coefficients are the ones its gain, centre frequency and
        Q call for at the current sample rate. */
    ghost predicate CoeffsCurrent()
      reads this, gainDb, coeffs
      requires Valid()
    {
      forall b :: 0 <= b < Bands ==>
        SectionOf(coeffs, b) == Design(libm, centerFreq[b], qFactor[b], gainDb[b], sampleRate as real)
    }

    /** With current coefficients, a 0 dB band holds exactly the identity
        section and every other band has b1 equal to a1. */
    lemma CoeffsShape()
      requires Valid() && CoeffsCurrent()
      ensures forall b :: 0 <= b < Bands && gainDb[b] == 0.0 ==>
                coeffs[b, 0] == 1.0 && coeffs[b, 1] == 0.0 && coeffs[b, 2] == 0.0 && coeffs[b, 3] == 0.0 && coeffs[b, 4] == 0.0
      ensures forall b :: 0 <= b < Bands && gainDb[b] != 0.0 ==> coeffs[b, 1] == coeffs[b, 3]
    {
      forall b | 0 <= b < Bands
        ensures gainDb[b] == 0.0 ==> SectionOf(coeffs, b) == Identity
        ensures gainDb[b] != 0.0 ==> SectionOf(coeffs, b).b1 == SectionOf(coeffs, b).a1
      {
        var c := Design(libm, centerFreq[b], qFactor[b], gainDb[b], sampleRate as real);
      }
    }

    /** Both channels' delay lines are zero in every band. */
    ghost predicate DelaysCleared()
      reads this, gainDb, delayLeft, delayRight
      requires Valid()
    {
      forall b, k :: 0 <= b < Bands && 0 <= k < 2 ==> delayLeft[b, k] == 0.0 && delayRight[b, k] == 0.0
    }

    /** The static initialiser: the Subwoofer Boost gains, enabled, 44100 Hz,
        and coefficients and delay lines zero until EqInit runs. */
    constructor (libm: MathLib)
      ensures Valid()
      ensures gainDb[..] == SubwooferBoostGains
      ensures enabled && sampleRate == DefaultSampleRate
      ensures forall b, k :: 0 <= b < Bands && 0 <= k < 5 ==> coeffs[b, k] == 0.0
      ensures DelaysCleared()
      ensures fresh(gainDb) && fresh(coeffs) && fresh(delayLeft) && fresh(delayRight)
      ensures this.libm == libm
    {
      gainDb := new real[Bands](b requires 0 <= b < Bands => SubwooferBoostGains[b]);
      coeffs := new real[Bands, 5]((_, _) => 0.0);
      delayLeft := new real[Bands, 2]((_, _) => 0.0);
      delayRight := new real[Bands, 2]((_, _) => 0.0);
      enabled := true;
      sampleRate := DefaultSampleRate;
      this.libm := libm;
      new;
      PresetGainsInRange();
    }

    /** The two memsets: zero both channels' delay lines. */
    method ClearDelays()
      requires Valid()
      modifies delayLeft, delayRight
      ensures DelaysCleared()
    {
      forall b, k | 0 <= b < Bands && 0 <= k < 2 {
        delayLeft[b, k] := 0.0;
      }
      forall b, k | 0 <= b < Bands && 0 <= k < 2 {
        delayRight[b, k] := 0.0;
      }
    }

    /** The in-place division of one row of coefficients by `a0`. */
    method NormaliseRow(band: nat, a0: real)
      requires Valid() && band < Bands
      modifies coeffs
      ensures var c := old(SectionOf(coeffs, band));
              SectionOf(coeffs, band) == Biquad(FDiv(c.b0, a0), FDiv(c.b1, a0), FDiv(c.b2, a0), FDiv(c.a1, a0), FDiv(c.a2, a0))
      ensures forall b :: 0 <= b < Bands && b != band ==> SectionOf(coeffs, b) == old(SectionOf(coeffs, b))
    {
      coeffs[band, 0] := FDiv(coeffs[band, 0], a0);
      coeffs[band, 1] := FDiv(coeffs[band, 1], a0);
      coeffs[band, 2] := FDiv(coeffs[band, 2], a0);
      coeffs[band, 3] := FDiv(coeffs[band, 3], a0);
      coeffs[band, 4] := FDiv(coeffs[band, 4], a0);
    }

    /** eq_init: record the sample rate, clear the delay lines and regenerate
        every band's coefficients.  Gains and `enabled` are not touched. */
    method EqInit(sr: u32)
      requires Valid() && sr > 0
      modifies this, coeffs, delayLeft, delayRight
      ensures Valid()
      ensures sampleRate == sr && enabled == old(enabled)
      ensures DelaysCleared() && CoeffsCurrent()
    {
      sampleRate := sr;
      ClearDelays();
      var band := 0;
      while band < Bands
        invariant 0 <= band <= Bands
        invariant Valid() && sampleRate == sr && enabled == old(enabled)
        invariant DelaysCleared()
        invariant forall b :: 0 <= b < band ==>
                    SectionOf(coeffs, b) == Design(libm, centerFreq[b], qFactor[b], gainDb[b], sampleRate as real)
      {
        GenerateBand(band);
        band := band + 1;
      }
    }

    /** One pass of eq_init's loop: write band `band`'s five coefficients, in
        place, as the identity or as the peaking section divided by a0.  The
        other rows are not touched. */
    method GenerateBand(band: nat)
      requires Valid() && band < Bands
      modifies coeffs
      ensures SectionOf(coeffs, band) == Design(libm, centerFreq[band], qFactor[band], gainDb[band], sampleRate as real)
      ensures forall b :: 0 <= b < Bands && b != band ==> SectionOf(coeffs, b) == old(SectionOf(coeffs, b))
    {
      var normFreq := centerFreq[band] / (sampleRate as real / 2.0);
      if gainDb[band] == 0.0 {
        coeffs[band, 0] := 1.0;
        coeffs[band, 1] := 0.0;
        coeffs[band, 2] := 0.0;
        coeffs[band, 3] := 0.0;
        coeffs[band, 4] := 0.0;
      } else {
        ghost var f, q, g, r := centerFreq[band], qFactor[band], gainDb[band], sampleRate as real;
        assert 2.0 * Pi * normFreq == Omega(f, r);
        var gainLinear := libm.powf(10.0, gainDb[band] / 20.0);
        var alpha := libm.sinf(2.0 * Pi * normFreq) / (2.0 * qFactor[band]);
        var a := gainLinear;
        coeffs[band, 0] := 1.0 + alpha * a;
        coeffs[band, 1] := -2.0 * libm.cosf(2.0 * Pi * normFreq);
        coeffs[band, 2] := 1.0 - alpha * a;
        coeffs[band, 3] := -2.0 * libm.cosf(2.0 * Pi * normFreq);
        coeffs[band, 4] := 1.0 - FDiv(alpha, a);
        var a0 := 1.0 + FDiv(alpha, a);
        NormaliseRow(band, a0);
        ghost var c1 := -2.0 * libm.cosf(2.0 * Pi * normFreq);
        assert SectionOf(coeffs, band)
            == Biquad(FDiv(1.0 + alpha * a, a0), FDiv(c1, a0), FDiv(1.0 - alpha * a, a0),
                      FDiv(c1, a0), FDiv(1.0 - FDiv(alpha, a), a0));
        DesignPeaking(libm, f, q, g, r, alpha, a, a0, c1);
      }
    }

    /** One band of the cascade on one channel (the left-channel block and its
        right-channel copy inside eq_process_stereo_int16): compute w, the
        band's output, and shift the band's delay line in place. */
    method BandStep(delay: array2<real>, band: nat, x: real) returns (y: real)
      requires Valid() && band < Bands
      requires delay == delayLeft || delay == delayRight
      modifies delay
      ensures var s := Step(SectionOf(coeffs, band), old(LineOf(delay))[band], x);
              y == s.0 && LineOf(delay) == old(LineOf(delay))[band := s.1]
    {
      ghost var line := LineOf(delay);
      ghost var s := Step(SectionOf(coeffs, band), line[band], x);
      var w := x - coeffs[band, 3] * delay[band, 0] - coeffs[band, 4] * delay[band, 1];
      y := coeffs[band, 0] * w + coeffs[band, 1] * delay[band, 0] + coeffs[band, 2] * delay[band, 1];
      assert y == s.0 && w == s.1.w0;
      delay[band, 1] := delay[band, 0];
      delay[band, 0] := w;
      assert forall b :: 0 <= b < Bands ==> LineOf(delay)[b] == line[band := s.1][b];
    }

    /** The band loop of eq_process_stereo_int16 for one frame: the left and
        the right input each pass through the ten bands in order, and each
        band's delay lines shift in place as they go. */
    method CascadeFrame(xl: real, xr: real) returns (yl: real, yr: real)
      requires Valid()
      modifies delayLeft, delayRight
      ensures (yl, LineOf(delayLeft)) == CascadeUpTo(SectionsOf(coeffs), old(LineOf(delayLeft)), xl, Bands)
      ensures (yr, LineOf(delayRight)) == CascadeUpTo(SectionsOf(coeffs), old(LineOf(delayRight)), xr, Bands)
    {
      ghost var ss := SectionsOf(coeffs);
      ghost var lineL, lineR := LineOf(delayLeft), LineOf(delayRight);
      yl, yr := xl, xr;
      var band := 0;
      while band < Bands
        invariant 0 <= band <= Bands
        invariant (yl, LineOf(delayLeft)) == CascadeUpTo(ss, lineL, xl, band)
        invariant (yr, LineOf(delayRight)) == CascadeUpTo(ss, lineR, xr, band)
      {
        yl := BandStep(delayLeft, band, yl);
        yr := BandStep(delayRight, band, yr);
        band := band + 1;
      }
    }

    /** One frame of eq_process_stereo_int16: both samples of frame `i` pass
        through all ten bands, are clamped and truncated, and are written back
        in place; nothing else in the buffer and nothing in the coefficients
        changes. */
    method ProcessFrame(samples: array<i16>, i: nat)
      requires Valid() && 2 * i + 1 < samples.Length
      modifies samples, delayLeft, delayRight
      ensures var l := CascadeUpTo(SectionsOf(coeffs), old(LineOf(delayLeft)), Decode(old(samples[2 * i])), Bands);
              var r := CascadeUpTo(SectionsOf(coeffs), old(LineOf(delayRight)), Decode(old(samples[2 * i + 1])), Bands);
              && samples[..] == old(samples[..])[2 * i := Quantize(l.0)][2 * i + 1 := Quantize(r.0)]
              && LineOf(delayLeft) == l.1 && LineOf(delayRight) == r.1
      ensures Valid() && SectionsOf(coeffs) == old(SectionsOf(coeffs))
    {
      ghost var s0: seq<i16> := samples[..];
      ghost var ss, l0, r0 := SectionsOf(coeffs), LineOf(delayLeft), LineOf(delayRight);
      var left := samples[i * 2] as real / 32768.0;
      var right := samples[i * 2 + 1] as real / 32768.0;
      assert left == Decode(s0[2 * i]) && right == Decode(s0[2 * i + 1]);
      left, right := CascadeFrame(left, right);
      ghost var yl, yr := left, right;
      ghost var lineL, lineR := LineOf(delayLeft), LineOf(delayRight);
      assert (yl, lineL) == CascadeUpTo(ss, l0, Decode(s0[2 * i]), Bands);
      assert (yr, lineR) == CascadeUpTo(ss, r0, Decode(s0[2 * i + 1]), Bands);
      left := Clamp(left);
      right := Clamp(right);
      samples[i * 2] := ToInt16(left * 32767.0);
      assert samples[..] == s0[2 * i := Quantize(yl)];
      samples[i * 2 + 1] := ToInt16(right * 32767.0);
      assert samples[..] == s0[2 * i := Quantize(yl)][2 * i + 1 := Quantize(yr)];
      assert LineOf(delayLeft) == lineL && LineOf(delayRight) == lineR;
      assert SectionsOf(coeffs) == ss;
    }

    /** eq_process_stereo_int16: when disabled nothing changes; when enabled the
        first `numSamples` frames of `samples` are replaced by the cascade's
        clamped and truncated output, the rest of the buffer is untouched, and
        the delay lines end as the same run leaves them. */
    method ProcessStereoInt16(samples: array<i16>, numSamples: nat)
      requires Valid() && 2 * numSamples <= samples.Length
      modifies samples, delayLeft, delayRight
      ensures !old(enabled) ==> unchanged(samples, delayLeft, delayRight)
      ensures old(enabled) ==>
                var run := RunFrames(SectionsOf(coeffs), old(LineOf(delayLeft)), old(LineOf(delayRight)),
                                     old(samples[..]), numSamples);
                && samples[..] == run.out + old(samples[2 * numSamples..])
                && LineOf(delayLeft) == run.left
                && LineOf(delayRight) == run.right
      ensures old(enabled) ==> forall k :: 0 <= k < 2 * numSamples ==> -32767 <= samples[k] <= 32767
      ensures samples[2 * numSamples..] == old(samples[2 * numSamples..])
    {
      if !enabled {
        return;
      }
      ghost var ss := SectionsOf(coeffs);
      ghost var input := samples[..];
      ghost var left0, right0 := LineOf(delayLeft), LineOf(delayRight);
      var i := 0;
      while i < numSamples
        invariant 0 <= i <= numSamples
        invariant RunInvariant(samples, ss, left0, right0, input, i)
      {
        AdvanceFrame(samples, i, ss, left0, right0, input);
        i := i + 1;
      }
      ghost var out := RunFrames(ss, left0, right0, input, numSamples).out;
      RunFramesRange(ss, left0, right0, input, numSamples);
      assert forall k :: 0 <= k < 2 * numSamples ==> samples[k] == samples[..][k] == out[k];
    }

    /** The state after the first `n` frames of a run: the buffer holds their
        outputs followed by the untouched input, and the delay lines hold the
        taps the run leaves. */
    ghost predicate RunInvariant(samples: array<i16>, ss: seq<Biquad>, left0: seq<Taps>, right0: seq<Taps>, input: seq<i16>, n: nat)
      reads this, gainDb, coeffs, samples, delayLeft, delayRight
    {
      && Valid() && ss == SectionsOf(coeffs)
      && |ss| == |left0| == |right0| && |input| == samples.Length && 2 * n <= |input|
      && samples[..] == RunFrames(ss, left0, right0, input, n).out + input[2 * n..]
      && RunFrames(ss, left0, right0, input, n).left == LineOf(delayLeft)
      && RunFrames(ss, left0, right0, input, n).right == LineOf(delayRight)
    }

    /** Frame `n` of a run, processed in place, extends the run by one frame. */
    method AdvanceFrame(samples: array<i16>, n: nat, ghost ss: seq<Biquad>, ghost left0: seq<Taps>, ghost right0: seq<Taps>, ghost input: seq<i16>)
      requires RunInvariant(samples, ss, left0, right0, input, n) && 2 * n + 2 <= samples.Length
      modifies samples, delayLeft, delayRight
      ensures RunInvariant(samples, ss, left0, right0, input, n + 1)
    {
      assert Valid();
      ghost var buf: seq<i16> := samples[..];
      ghost var p := RunFrames(ss, left0, right0, input, n);
      ghost var l := CascadeUpTo(ss, p.left, Decode(input[2 * n]), |ss|);
      ghost var rt := CascadeUpTo(ss, p.right, Decode(input[2 * n + 1]), |ss|);
      RunFramesSplice(ss, left0, right0, input, n, buf);
      ProcessFrame(samples, n);
      assert SectionsOf(coeffs) == ss;
      assert samples[..] == buf[2 * n := Quantize(l.0)][2 * n + 1 := Quantize(rt.0)];
      assert LineOf(delayLeft) == l.1 && LineOf(delayRight) == rt.1;
      assert samples[..] == RunFrames(ss, left0, right0, input, n + 1).out + input[2 * (n + 1)..];
    }

    /** set_eq_band: an index outside [0, 10) or a gain outside [-15, 15] is
        rejected and nothing changes; otherwise the band takes the gain and
        EqInit runs at the current sample rate. */
    method SetEqBand(band: int, gain: real) returns (status: Status)
      requires Valid()
      modifies this, gainDb, coeffs, delayLeft, delayRight
      ensures Valid()
      ensures status == InvalidBandIndex <==> !(0 <= band < Bands)
      ensures status == InvalidGain <==> 0 <= band < Bands && !(MinGainDb <= gain <= MaxGainDb)
      ensures status != Ok ==>
                && unchanged(this, gainDb, coeffs, delayLeft, delayRight)
      ensures status == Ok ==>
                && gainDb[..] == old(gainDb[..])[band := gain]
                && enabled == old(enabled) && sampleRate == old(sampleRate)
                && DelaysCleared() && CoeffsCurrent()
    {
      if band < 0 || band >= Bands {
        return InvalidBandIndex;
      }
      if gain < MinGainDb || gain > MaxGainDb {
        return InvalidGain;
      }
      gainDb[band] := gain;
      EqInit(sampleRate);
      status := Ok;
    }

    /** apply_eq_preset: "Flat (Bypass)" zeroes every gain and disables,
        "Subwoofer Boost" loads its table and enables, and both then run
        EqInit; "Custom" only enables; any other name changes no gain and not
        `enabled`, but still runs EqInit. */
    method ApplyEqPreset(preset: string)
      requires Valid()
      modifies this, gainDb, coeffs, delayLeft, delayRight
      ensures Valid() && sampleRate == old(sampleRate)
      ensures preset == "Flat (Bypass)" ==>
                gainDb[..] == FlatGains && !enabled && DelaysCleared() && CoeffsCurrent()
                && forall b :: 0 <= b < Bands ==> SectionOf(coeffs, b) == Identity
      ensures preset == "Subwoofer Boost" ==>
                gainDb[..] == SubwooferBoostGains && enabled && DelaysCleared() && CoeffsCurrent()
      ensures preset == "Custom" ==>
                enabled && unchanged(gainDb, coeffs, delayLeft, delayRight)
      ensures preset != "Flat (Bypass)" && preset != "Subwoofer Boost" && preset != "Custom" ==>
                gainDb[..] == old(gainDb[..]) && enabled == old(enabled) && DelaysCleared() && CoeffsCurrent()
    {
      PresetGainsInRange();
      if preset == "Flat (Bypass)" {
        for i := 0 to Bands
          invariant sampleRate == old(sampleRate) && enabled == old(enabled)
          invariant forall b :: 0 <= b < i ==> gainDb[b] == 0.0
          invariant forall b :: i <= b < Bands ==> gainDb[b] == old(gainDb[b])
        {
          gainDb[i] := 0.0;
        }
        enabled := false;
      } else if preset == "Subwoofer Boost" {
        gainDb[0] := 6.0;
        gainDb[1] := 4.0;
        gainDb[2] := 2.0;
        gainDb[3] := -1.0;
        gainDb[4] := -3.0;
        gainDb[5] := -1.0;
        gainDb[6] := 0.0;
        gainDb[7] := -2.0;
        gainDb[8] := 0.0;
        gainDb[9] := 3.0;
        assert gainDb[..] == SubwooferBoostGains;
        enabled := true;
      } else if preset == "Custom" {
        enabled := true;
        return;
      }
      EqInit(sampleRate);
    }

    /** enable_eq: set `enabled`; enabling also clears both channels' delay
        lines, disabling leaves them.  Gains, coefficients and the sample rate
        are never touched. */
    method EnableEq(enable: bool)
      requires Valid()
      modifies this`enabled, delayLeft, delayRight
      ensures Valid()
      ensures enabled == enable
      ensures enable ==> DelaysCleared()
      ensures !enable ==> unchanged(delayLeft, delayRight)
    {
      enabled := enable;
      if enable {
        ClearDelays();
      }
    }
  }
}
