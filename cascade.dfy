/** The cascade filter of eq_process_stereo_int16 (components/snapclient/graphic_eq.h,
    lines 101-138) stated on values: one direct-form II section step, the
    cascade of sections a sample passes through, the clamp and the int16 cast,
    and whole runs over an interleaved stereo buffer.  The class in GraphicEq
    runs the same computation in place and is proved equal to `RunFrames`. */
module Cascade {
  import opened Coefficients

  /** A signed 16-bit PCM sample. */
  type i16 = x: int | -32768 <= x <= 32767

  /** The two delay taps (w0, w1) of one section on one channel. */
  datatype Taps = Taps(w0: real, w1: real)

  function Sign(s: int): int
  {
    if s > 0 then 1 else if s < 0 then -1 else 0
  }

  /** One section applied to input `x` with taps `t`: the output and the new
      taps.  The taps shift (w1 takes the old w0) and the new w0 is the
      feedback value w, which satisfies x = w + a1·w0 + a2·w1.  An identity
      section passes its input through exactly. */
  function Step(c: Biquad, t: Taps, x: real): (r: (real, Taps))
    ensures r.1.w1 == t.w0
    ensures x == r.1.w0 + c.a1 * t.w0 + c.a2 * t.w1
    ensures c == Identity ==> r.0 == x
  {
    var w := x - c.a1 * t.w0 - c.a2 * t.w1;
    (c.b0 * w + c.b1 * t.w0 + c.b2 * t.w1, Taps(w, t.w0))
  }

  /** The sample `x` after the first `k` sections of `ss`, and the taps then. */
  function CascadeUpTo(ss: seq<Biquad>, ts: seq<Taps>, x: real, k: nat): (r: (real, seq<Taps>))
    requires k <= |ss| == |ts|
    ensures |r.1| == |ts|
    decreases k
  {
    if k == 0 then (x, ts)
    else
      var p := CascadeUpTo(ss, ts, x, k - 1);
      var s := Step(ss[k - 1], p.1[k - 1], p.0);
      (s.0, p.1[k - 1 := s.1])
  }

  /** Sections `k` and above keep their taps; in each of the first `k` the taps
      have shifted, the second tap taking the old first one. */
  lemma {:induction false} CascadeTaps(ss: seq<Biquad>, ts: seq<Taps>, x: real, k: nat)
    requires k <= |ss| == |ts|
    ensures forall j :: k <= j < |ts| ==> CascadeUpTo(ss, ts, x, k).1[j] == ts[j]
    ensures forall j :: 0 <= j < k ==> CascadeUpTo(ss, ts, x, k).1[j].w1 == ts[j].w0
  {
    if k > 0 {
      CascadeTaps(ss, ts, x, k - 1);
    }
  }

  /** A cascade of identity sections passes its input through, whatever the taps. */
  lemma {:induction false} CascadeIdentity(ss: seq<Biquad>, ts: seq<Taps>, x: real, k: nat)
    requires k <= |ss| == |ts|
    requires forall j :: 0 <= j < |ss| ==> ss[j] == Identity
    ensures CascadeUpTo(ss, ts, x, k).0 == x
  {
    if k > 0 {
      CascadeIdentity(ss, ts, x, k - 1);
    }
  }

  /** `fmaxf(-1, fminf(1, y))`: the hard limit to [-1, 1]. */
  function Clamp(y: real): (r: real)
    ensures -1.0 <= r <= 1.0
    ensures -1.0 <= y <= 1.0 ==> r == y
    ensures y > 1.0 ==> r == 1.0
    ensures y < -1.0 ==> r == -1.0
  {
    var hi := if 1.0 < y then 1.0 else y;
    if -1.0 > hi then -1.0 else hi
  }

  /** The C cast `(int16_t)x`: truncation toward zero, defined only when the
      truncated value fits in 16 bits. */
  function ToInt16(x: real): (r: i16)
    requires -32769.0 < x < 32768.0
    ensures x >= 0.0 ==> r >= 0 && r as real <= x < r as real + 1.0
    ensures x < 0.0 ==> r <= 0 && r as real - 1.0 < x <= r as real
  {
    if x >= 0.0 then x.Floor else -((-x).Floor)
  }

  /** int16 sample to float: `s / 32768`. */
  function Decode(s: i16): (x: real)
    ensures -1.0 <= x < 1.0
  {
    s as real / 32768.0
  }

  /** Clamp, scale by 32767 and truncate: always within [-32767, 32767]. */
  function Quantize(y: real): (r: i16)
    ensures -32767 <= r <= 32767
    ensures y >= 1.0 ==> r == 32767
    ensures y <= -1.0 ==> r == -32767
  {
    ToInt16(Clamp(y) * 32767.0)
  }

  /** A sample that bypasses every section comes back one step closer to
      zero (the 32768/32767 scale asymmetry), and zero comes back as zero. */
  lemma BypassRoundTrip(s: i16)
    ensures Quantize(Decode(s)) == s - Sign(s)
  {
    var x := Decode(s);
    assert Clamp(x) == x;
    var v := x * 32767.0;
    assert v == s as real - s as real / 32768.0;
    var r := Quantize(x);
    if s > 0 {
      assert s as real - 1.0 <= v < s as real;
      assert r as real <= v < r as real + 1.0;
    } else if s < 0 {
      assert s as real < v <= s as real + 1.0;
      assert r as real - 1.0 < v <= r as real;
    }
  }

  /** What a run over the first frames of a buffer leaves: the output samples
      and the left and right taps of every section. */
  datatype Run = Run(out: seq<i16>, left: seq<Taps>, right: seq<Taps>)

  /** The first `n` frames of the interleaved stereo `input` sent through the
      sections `ss`, starting from the taps `left0` and `right0`.  Every output
      sample is in [-32767, 32767] (`RunFramesRange`). */
  function RunFrames(ss: seq<Biquad>, left0: seq<Taps>, right0: seq<Taps>, input: seq<i16>, n: nat): (r: Run)
    requires |ss| == |left0| == |right0| && 2 * n <= |input|
    ensures |r.out| == 2 * n && |r.left| == |ss| && |r.right| == |ss|
    decreases n
  {
    if n == 0 then Run([], left0, right0)
    else
      var p := RunFrames(ss, left0, right0, input, n - 1);
      var l := CascadeUpTo(ss, p.left, Decode(input[2 * (n - 1)]), |ss|);
      var rt := CascadeUpTo(ss, p.right, Decode(input[2 * (n - 1) + 1]), |ss|);
      Run(p.out + [Quantize(l.0), Quantize(rt.0)], l.1, rt.1)
  }

  /** One more frame extends a run by the two quantised outputs of that frame. */
  lemma RunFramesNext(ss: seq<Biquad>, left0: seq<Taps>, right0: seq<Taps>, input: seq<i16>, n: nat)
    requires |ss| == |left0| == |right0| && 2 * n + 2 <= |input|
    ensures var p := RunFrames(ss, left0, right0, input, n);
            var l := CascadeUpTo(ss, p.left, Decode(input[2 * n]), |ss|);
            var rt := CascadeUpTo(ss, p.right, Decode(input[2 * n + 1]), |ss|);
            RunFrames(ss, left0, right0, input, n + 1) == Run(p.out + [Quantize(l.0), Quantize(rt.0)], l.1, rt.1)
  {
  }

  /** A buffer holding the first `n` output frames followed by the rest of the
      input becomes, once frame `n` is overwritten with its two outputs, the
      buffer for `n + 1` frames. */
  lemma RunFramesSplice(ss: seq<Biquad>, left0: seq<Taps>, right0: seq<Taps>, input: seq<i16>, n: nat, buf: seq<i16>)
    requires |ss| == |left0| == |right0| && 2 * n + 2 <= |input|
    requires buf == RunFrames(ss, left0, right0, input, n).out + input[2 * n..]
    ensures buf[2 * n] == input[2 * n] && buf[2 * n + 1] == input[2 * n + 1]
    ensures var p := RunFrames(ss, left0, right0, input, n);
            var l := CascadeUpTo(ss, p.left, Decode(input[2 * n]), |ss|);
            var rt := CascadeUpTo(ss, p.right, Decode(input[2 * n + 1]), |ss|);
            var q := RunFrames(ss, left0, right0, input, n + 1);
            && q.left == l.1 && q.right == rt.1
            && buf[2 * n := Quantize(l.0)][2 * n + 1 := Quantize(rt.0)] == q.out + input[2 * n + 2..]
  {
    var p := RunFrames(ss, left0, right0, input, n);
    var l := CascadeUpTo(ss, p.left, Decode(input[2 * n]), |ss|);
    var rt := CascadeUpTo(ss, p.right, Decode(input[2 * n + 1]), |ss|);
    RunFramesNext(ss, left0, right0, input, n);
    var lhs := buf[2 * n := Quantize(l.0)][2 * n + 1 := Quantize(rt.0)];
    var rhs := RunFrames(ss, left0, right0, input, n + 1).out + input[2 * n + 2..];
    assert |lhs| == |rhs|;
    forall k | 0 <= k < |lhs|
      ensures lhs[k] == rhs[k]
    {
      if k >= 2 * n + 2 {
        assert rhs[k] == input[k];
        assert buf[k] == input[2 * n..][k - 2 * n];
      }
    }
  }

  /** Every sample of a run is within [-32767, 32767]. */
  lemma {:induction false} RunFramesRange(ss: seq<Biquad>, left0: seq<Taps>, right0: seq<Taps>, input: seq<i16>, n: nat)
    requires |ss| == |left0| == |right0| && 2 * n <= |input|
    ensures forall k :: 0 <= k < 2 * n ==> -32767 <= RunFrames(ss, left0, right0, input, n).out[k] <= 32767
  {
    if n > 0 {
      RunFramesRange(ss, left0, right0, input, n - 1);
    }
  }

  /** Through sections that are all the identity, every sample of the run
      comes back as `s - Sign(s)`: within one step of the input. */
  lemma {:induction false} BypassRun(ss: seq<Biquad>, left0: seq<Taps>, right0: seq<Taps>, input: seq<i16>, n: nat)
    requires |ss| == |left0| == |right0| && 2 * n <= |input|
    requires forall j :: 0 <= j < |ss| ==> ss[j] == Identity
    ensures forall k :: 0 <= k < 2 * n ==>
              RunFrames(ss, left0, right0, input, n).out[k] == input[k] - Sign(input[k])
  {
    if n > 0 {
      var p := RunFrames(ss, left0, right0, input, n - 1);
      BypassRun(ss, left0, right0, input, n - 1);
      var i := 2 * (n - 1);
      CascadeIdentity(ss, p.left, Decode(input[i]), |ss|);
      CascadeIdentity(ss, p.right, Decode(input[i + 1]), |ss|);
      BypassRoundTrip(input[i]);
      BypassRoundTrip(input[i + 1]);
    }
  }
}
