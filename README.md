# 10-band graphic equalizer

A Dafny model of the graphic equalizer of the snapclient component
(`components/snapclient/graphic_eq.h`): the `graphic_eq_t` state with its
static initialiser, and the five entry points that act on it.

The model has three modules:

- **Coefficients** (`coefficients.dfy`) — the per-band coefficient generator of
  `eq_init`, stated on values. `Design` is the section a band receives: the
  identity `{1, 0, 0, 0, 0}` at 0 dB, otherwise the five peaking coefficients,
  all divided by the same `a0 = 1 + alpha / A`. The libm calls `sinf`, `cosf`
  and `powf` are parameters (a `MathLib` value). Every fact proved here
  therefore holds whatever those functions return.
  - The angle handed to `sinf`/`cosf` is modelled as the code computes it.
    The frequency is first normalised to the Nyquist frequency and then
    multiplied by 2π, which gives 4πf/fs (`Omega`).
  - For a nonzero gain, `b1` and `a1` come from the same expression.
  - Every designed section has unity gain at DC (`DesignUnityAtDc`): a 0 dB
    band always, and a band with nonzero gain whenever its a0 ≠ 0.
  - For a nonzero gain with a0 ≠ 0, `b0 - b2 == A²·(1 - a2)` (`DesignPeakRatio`),
    with A = 10^(gain/20) as the code computes it.
  - Two consequences, read from these facts and not executed:
    - The centre gain is A² = 10^(gain/10), twice the requested number of dB.
      The usual peaking design uses A = 10^(gain/40).
    - Because the angle is doubled, a band with fs/4 < f < fs/2 has
      sin ω < 0, so alpha < 0. Then |a2| > 1, which puts a pole outside the
      unit circle. An example is the 5000 Hz band of a 16 kHz stream.
- **Cascade** (`cascade.dfy`) — the processing path of
  `eq_process_stereo_int16`, stated on values. It covers:
  - one direct-form II section step (`Step`);
  - the cascade of the ten sections (`CascadeUpTo`);
  - the int16-to-float conversion (`Decode`);
  - the clamp to [-1, 1] (`Clamp`);
  - the truncating `(int16_t)` cast (`ToInt16`);
  - a whole run over an interleaved stereo buffer (`RunFrames`).
  
  Identity sections pass every sample through exactly. The scale asymmetry
  (divide by 32768, multiply by 32767) then brings each sample back one step
  closer to zero (`BypassRoundTrip`, `BypassRun`).
- **GraphicEq** (`graphic_eq.dfy`) — class `Equalizer` mirrors `graphic_eq_t`.
  - `gain_db` is an `array<real>`; `coeffs`, `delay_left` and `delay_right`
    are `array2<real>`.
  - `enabled` and `sample_rate` are mutable fields.
  - Each entry point is a method that updates this state in place, as the C
    code does. Each method is proved against the value-level specifications
    above:
    - `EqInit` leaves every row equal to `Design` (`CoeffsCurrent`).
    - `ProcessStereoInt16` leaves the buffer and both delay lines as
      `RunFrames` computes them.

## Model

| member | source | states |
|---|---|---|
| Coefficients.Omega | components/snapclient/graphic_eq.h:49-73 | the angle passed to sinf/cosf, 2π·f/(fs/2), satisfies ω·fs = 4πf |
| Coefficients.Design | components/snapclient/graphic_eq.h:51-82 | a 0 dB band gets exactly the identity section; any other band has b1 equal to a1 |
| Coefficients.DesignNormalised | components/snapclient/graphic_eq.h:66-82 | for a nonzero gain with a0 ≠ 0, all five stored coefficients are divided by the same a0 = 1+α/A: times a0 they give 1+αA, −2cos ω, 1−αA, −2cos ω and 1−α/A |
| Coefficients.DesignUnityAtDc | components/snapclient/graphic_eq.h:70-82 | b0+b1+b2 = 1+a1+a2, i.e. the band passes DC with gain 1: always at 0 dB, and for a nonzero gain whenever a0 ≠ 0 |
| Coefficients.DesignPeakRatio | components/snapclient/graphic_eq.h:61-82 | for a nonzero gain with a0 ≠ 0, b0−b2 = A²·(1−a2) where A = powf(10, gain/20) |
| Cascade.Step | components/snapclient/graphic_eq.h:109-117 | one section step: the new w1 is the old w0, the new w0 is the feedback value w with x = w + a1·w0 + a2·w1, and the identity section returns its input |
| Cascade.CascadeUpTo | components/snapclient/graphic_eq.h:107-129 | the reference definition of the band loop: the sample after sections 0..k−1 in order, each section on its own taps, with those taps shifted and the rest left as they were; one pair of taps per band is kept |
| Cascade.CascadeTaps | components/snapclient/graphic_eq.h:113-127 | after k sections the bands from k on keep their taps, and in each band before k the second tap holds the old first tap |
| Cascade.CascadeIdentity | components/snapclient/graphic_eq.h:107-129 | a cascade of identity sections outputs its input, whatever the delay lines hold |
| Cascade.Clamp | components/snapclient/graphic_eq.h:132-133 | fmaxf(−1, fminf(1, y)) lies in [−1, 1], equals y inside that range and saturates outside it |
| Cascade.ToInt16 | components/snapclient/graphic_eq.h:136-137 | the (int16_t) cast truncates toward zero |
| Cascade.Decode | components/snapclient/graphic_eq.h:103-104 | s / 32768 lies in [−1, 1) |
| Cascade.Quantize | components/snapclient/graphic_eq.h:132-137 | clamp, scale by 32767 and truncate always gives a value in [−32767, 32767], saturating at ±32767 |
| Cascade.BypassRoundTrip | components/snapclient/graphic_eq.h:103-137 | a sample that passes through unfiltered comes back as s − sign(s) |
| Cascade.RunFrames | components/snapclient/graphic_eq.h:101-138 | the reference definition of a whole call: frames 0..n−1 in order, each channel decoded from the original sample, taken through the ten-section cascade with the taps carried from frame to frame, and quantised; 2n output samples and one pair of taps per band per channel |
| Cascade.RunFramesRange | components/snapclient/graphic_eq.h:132-137 | every output sample of a run lies in [−32767, 32767] |
| Cascade.RunFramesSplice | components/snapclient/graphic_eq.h:136-137 | overwriting frame n in place turns the buffer for n processed frames into the buffer for n+1 |
| Cascade.BypassRun | components/snapclient/graphic_eq.h:101-138 | through identity sections, every output sample of a run is its input sample minus its sign |
| GraphicEq.PresetGainsInRange | components/snapclient/graphic_eq.h:172-188 | both preset tables have ten gains, all within [−15, 15] |
| GraphicEq.Equalizer.constructor | components/snapclient/graphic_eq.h:24-30 | the initial state: Subwoofer Boost gains, enabled, 44100 Hz, coefficients and delay lines all zero |
| GraphicEq.Equalizer.CoeffsShape | components/snapclient/graphic_eq.h:51-74 | with current coefficients, each 0 dB band's row is exactly {1,0,0,0,0} and every other band has coeffs[b][1] = coeffs[b][3] |
| GraphicEq.Equalizer.ClearDelays | components/snapclient/graphic_eq.h:43-44 | both memsets leave every delay-line entry 0 |
| GraphicEq.Equalizer.NormaliseRow | components/snapclient/graphic_eq.h:78-82 | the five in-place divisions divide one row by a0 and leave the other rows alone |
| GraphicEq.Equalizer.EqInit | components/snapclient/graphic_eq.h:38-88 | eq_init(sr) records sr, zeroes both delay lines and leaves every band's row equal to its Design; gains and enabled unchanged |
| GraphicEq.Equalizer.GenerateBand | components/snapclient/graphic_eq.h:48-83 | one loop pass writes band b's row as its Design and leaves every other row unchanged |
| GraphicEq.Equalizer.BandStep | components/snapclient/graphic_eq.h:109-128 | one band on one channel returns the section's output and shifts only that band's delay line (w1 ← w0, w0 ← w) |
| GraphicEq.Equalizer.CascadeFrame | components/snapclient/graphic_eq.h:107-129 | the band loop takes both channels through all ten sections, with the same outputs and delay lines as CascadeUpTo |
| GraphicEq.Equalizer.ProcessFrame | components/snapclient/graphic_eq.h:103-137 | a frame writes back exactly the two quantised cascade outputs at 2i and 2i+1 and touches no other sample |
| GraphicEq.Equalizer.AdvanceFrame | components/snapclient/graphic_eq.h:101-138 | processing frame n in place extends the run's buffer and delay lines from n frames to n+1 |
| GraphicEq.Equalizer.ProcessStereoInt16 | components/snapclient/graphic_eq.h:95-139 | disabled: buffer and delay lines untouched. Enabled: the first 2n samples and both delay lines are those of RunFrames, every written sample is in [−32767, 32767], and samples from 2n on are unchanged |
| GraphicEq.Equalizer.SetEqBand | components/snapclient/graphic_eq.h:146-162 | out-of-range band or gain (bounds inclusive) changes nothing. Otherwise only gain[band] changes, enabled and sample rate stay, delay lines are zeroed and coefficients regenerated |
| GraphicEq.Equalizer.ApplyEqPreset | components/snapclient/graphic_eq.h:167-199 | see the preset list below the table |
| GraphicEq.Equalizer.EnableEq | components/snapclient/graphic_eq.h:204-213 | enabled becomes the argument. Enabling zeroes both delay lines; disabling leaves them. Nothing else changes |

`ApplyEqPreset` covers four cases:

- "Flat (Bypass)": all gains become 0, the EQ is disabled, and every row becomes the identity.
- "Subwoofer Boost": the gains become exactly [6,4,2,−1,−3,−1,0,−2,0,3] and the EQ is enabled.
- "Custom": only enables; gains, coefficients and delay lines are untouched.
- Any other name: gains and enabled stay as they were, but eq_init still runs.

## Left out

- `components/snapclient/__init__.py` is not part of this model. It is the ESPHome configuration schema and build-flag generation, with no equalizer logic.
- Floating point is modelled with exact reals:
  - `sinf`, `cosf` and `powf` are uninterpreted parameters;
  - `fmaxf`/`fminf` are exact;
  - float rounding in the filter arithmetic is not modelled.
- Stability and frequency-response claims are not modelled. They depend on the numeric values of the libm results.
- FDiv: IEEE division by zero gives an infinity or NaN; the model has no such values and yields 0. It is used for alpha/A and for the division by a0.
- SetEqBand: reals have no NaN. In the C code a NaN gain fails both range comparisons and is therefore stored; the model cannot express that input.
- GraphicEq.Equalizer.EqInit: requires a nonzero sample rate. The C code does not check it. At 0 Hz, `sample_rate / 2.0f` is 0, so dividing `center_freq` by it at line 49 gives an infinity. `sinf`/`cosf` of that infinity then make NaN coefficients for every band with nonzero gain, while 0 dB bands still get the identity. The model has neither infinities nor NaN.
- The conversion of `sample_rate` from `uint32_t` to `float` is taken as exact. Rates up to 2^24 convert exactly in float.
- The `dsps_biquad_gen_peakingEQ_f32` call is not modelled. It is a foreign ESP-DSP routine, and lines 70-82 overwrite the row it writes.
- `ESP_LOGI`/`ESP_LOGE` diagnostics are not modelled. SetEqBand returns a `Status` in place of the two error logs; the C function returns nothing.
- Concurrency is not modelled. The C code has no synchronisation between control calls and audio processing.
- The global `eq` instance becomes an `Equalizer` object that callers pass around.
- `size_t` overflow of `i * 2` for huge buffers is not modelled. The model requires the buffer to hold `2 * numSamples` samples, as the caller must.
