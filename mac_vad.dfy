/** The macOS ScreenCaptureKit prototype: linear resampling to 16 kHz and the
    streaming Silero segmenter that turns 512-sample windows into saved speech
    segments (pre-roll, segment buffer, trailing-silence buffer, post-pad).

    The segmenter's state is a class whose methods update it in place; its
    behaviour is specified by the functions on `SegState` below, and the
    segmentation invariants are lemmas about those functions. The VAD model is
    an oracle `model` from a window of samples to a probability; the WAV file
    that `_on_segment_complete` writes is represented by its PCM content,
    appended to `saved`. */
module MacVad {
  import opened Common

  type Byte = bv8

  // ---------------------------------------------------------------------------
  // resample_linear

  /** `np.linspace(0, stop, m)`: `m` evenly spaced positions from 0 to `stop`. */
  function Linspace(stop: real, m: nat): (r: seq<real>)
    requires stop >= 0.0
    ensures |r| == m
    ensures m > 0 ==> r[0] == 0.0
    ensures m > 1 ==> r[m - 1] == stop
    ensures forall k :: 0 <= k < m ==> 0.0 <= r[k] <= stop
  {
    if m == 1 then [0.0]
    else seq(m, k requires 0 <= k < m => LinspaceAt(k, m, stop))
  }

  /** Position `k` of `m > 1` evenly spaced from 0 to `stop`. */
  function LinspaceAt(k: nat, m: nat, stop: real): (x: real)
    requires k < m && m > 1 && stop >= 0.0
    ensures 0.0 <= x <= stop
    ensures k == 0 ==> x == 0.0
    ensures k == m - 1 ==> x == stop
  {
    var d := (m - 1) as real;
    assert (k as real) * stop <= d * stop;
    assert (k as real) * stop / d <= d * stop / d;
    assert d * stop / d == stop;
    (k as real) * stop / d
  }

  /** `np.interp(p, arange(n), x)` at a position inside [0, n-1]. */
  function Interp(x: seq<real>, p: real): (r: real)
    requires |x| > 0 && 0.0 <= p <= (|x| - 1) as real
    ensures p == p.Floor as real ==> r == x[p.Floor]
  {
    var i := p.Floor;
    if i >= |x| - 1 then x[|x| - 1]
    else x[i] + (p - i as real) * (x[i + 1] - x[i])
  }

  /** `resample_linear(x, sr_in, sr_out)`: identity for equal rates or empty
      input; otherwise `floor(n * sr_out / sr_in)` samples interpolated at
      evenly spaced positions over the input, so both ends are kept. */
  function ResampleLinear(x: seq<real>, srIn: nat, srOut: nat): (r: seq<real>)
    requires srIn > 0
    ensures srIn == srOut || x == [] ==> r == x
    ensures srIn != srOut && x != [] ==> |r| == |x| * srOut / srIn
    ensures |r| > 0 ==> r[0] == x[0]
    ensures srIn != srOut && |r| > 1 ==> r[|r| - 1] == x[|x| - 1]
  {
    if srIn == srOut || x == [] then x
    else
      var nOut := |x| * srOut / srIn;
      var pos := Linspace((|x| - 1) as real, nOut);
      seq(nOut, k requires 0 <= k < nOut => Interp(x, pos[k]))
  }

  // ---------------------------------------------------------------------------
  // SileroVADSegmenter: specification

  /** The segmenter's parameters, in samples (`int(sr * ms / 1000)`). */
  datatype Config = Config(threshold: real, minSilenceSamples: nat, padSamples: nat, windowSize: nat)

  /** Every field `push_samples` and `_on_segment_complete` touch. `saved`
      lists the PCM content of each segment written so far. */
  datatype SegState = SegState(
    triggered: bool,
    silenceRun: nat,
    preRoll: seq<Byte>,
    segBuf: seq<Byte>,
    tailBuf: seq<Byte>,
    floatResid: seq<real>,
    int16Resid: seq<Byte>,
    idx: nat,
    saved: seq<seq<Byte>>)

  function Initial(): SegState {
    SegState(false, 0, [], [], [], [], [], 0, [])
  }

  /** `_reset`: the pre-roll and the residuals are kept. */
  function ResetState(s: SegState): SegState {
    s.(triggered := false, silenceRun := 0, segBuf := [], tailBuf := [])
  }

  /** `_on_segment_complete`. */
  function Complete(c: Config, s: SegState): SegState {
    if s.segBuf == [] then ResetState(s)
    else
      var keep := Min(c.padSamples, |s.tailBuf| / 2);
      ResetState(s).(idx := s.idx + 1, saved := s.saved + [s.segBuf + s.tailBuf[..keep * 2]])
  }

  /** An empty segment buffer writes nothing; otherwise one segment is
      written: the buffer, then at most `pad` samples of the trailing
      silence. Either way the segmenter ends idle and empty. */
  lemma CompleteProps(c: Config, s: SegState)
    ensures var r := Complete(c, s);
      && !r.triggered && r.silenceRun == 0 && r.segBuf == [] && r.tailBuf == []
      && r.preRoll == s.preRoll && r.floatResid == s.floatResid && r.int16Resid == s.int16Resid
      && (s.segBuf == [] ==> r.saved == s.saved && r.idx == s.idx)
      && (s.segBuf != [] ==>
            && r.idx == s.idx + 1
            && |r.saved| == |s.saved| + 1 && r.saved[..|s.saved|] == s.saved
            && var seg := r.saved[|s.saved|];
               && |seg| == |s.segBuf| + 2 * Min(c.padSamples, |s.tailBuf| / 2)
               && seg[..|s.segBuf|] == s.segBuf
               && IsPrefix(seg[|s.segBuf|..], s.tailBuf)
               && |seg| <= |s.segBuf| + 2 * c.padSamples)
  {
    if s.segBuf != [] {
      var keep := Min(c.padSamples, |s.tailBuf| / 2);
      var seg := s.segBuf + s.tailBuf[..keep * 2];
      assert seg[|s.segBuf|..] == s.tailBuf[..keep * 2];
      assert Complete(c, s).saved[..|s.saved|] == s.saved;
    }
  }

  /** One window of `push_samples` with probability `p` and PCM bytes `chunk`. */
  function WindowStep(c: Config, s: SegState, p: real, chunk: seq<Byte>): (r: SegState)
    ensures r.floatResid == s.floatResid && r.int16Resid == s.int16Resid
  {
    if p >= c.threshold then
      var s1 := if !s.triggered then s.(segBuf := s.segBuf + s.preRoll, preRoll := [], triggered := true, silenceRun := 0) else s;
      s1.(segBuf := s1.segBuf + s1.tailBuf + chunk, tailBuf := [])
    else if !s.triggered then
      s.(preRoll := LastK(s.preRoll + chunk, 2 * c.padSamples))
    else
      var t := s.(tailBuf := s.tailBuf + chunk, silenceRun := s.silenceRun + c.windowSize);
      if t.silenceRun >= c.minSilenceSamples then Complete(c, t) else t
  }

  /** The `while` loop of `push_samples`: consume whole windows while at least
      W floats and 2W bytes are buffered. */
  function Drain(c: Config, s: SegState, model: seq<real> -> real): SegState
    requires c.windowSize > 0
    decreases |s.floatResid|
  {
    var w := c.windowSize;
    if |s.floatResid| >= w && |s.int16Resid| >= 2 * w then
      var s1 := s.(floatResid := s.floatResid[w..], int16Resid := s.int16Resid[2 * w..]);
      Drain(c, WindowStep(c, s1, model(s.floatResid[..w]), s.int16Resid[..2 * w]), model)
    else s
  }

  /** `push_samples(f32, i16_bytes)`. */
  function PushSpec(c: Config, s: SegState, f32: seq<real>, i16: seq<Byte>, model: seq<real> -> real): SegState
    requires c.windowSize > 0
  {
    if f32 == [] then s
    else Drain(c, s.(floatResid := s.floatResid + f32, int16Resid := s.int16Resid + i16), model)
  }

  /** `flush`. */
  function FlushSpec(c: Config, s: SegState): SegState {
    if s.segBuf != [] then Complete(c, s) else s
  }

  /** Floats consumed by `push_samples` from `nf` floats and `nb` bytes: W for
      each whole window. */
  function WindowFloats(w: nat, nf: nat, nb: nat): nat
    requires w > 0
    decreases nf
  {
    if nf >= w && nb >= 2 * w then w + WindowFloats(w, nf - w, nb - 2 * w) else 0
  }

  // ---------------------------------------------------------------------------
  // SileroVADSegmenter: properties

  /** The four cases of one window. */
  lemma WindowStepCases(c: Config, s: SegState, p: real, chunk: seq<Byte>)
    ensures var r := WindowStep(c, s, p, chunk);
      // first speech window: the pre-roll, then the window, opens the segment
      && (p >= c.threshold && !s.triggered ==>
            r.triggered && r.silenceRun == 0 && r.preRoll == []
            && r.segBuf == s.segBuf + s.preRoll + s.tailBuf + chunk && r.tailBuf == [])
      // speech while triggered: the pending silence, then the window; silence_run is kept
      && (p >= c.threshold && s.triggered ==>
            r == s.(segBuf := s.segBuf + s.tailBuf + chunk, tailBuf := []))
      // silence while idle: the pre-roll keeps only the newest 2*pad bytes
      && (p < c.threshold && !s.triggered ==>
            r == s.(preRoll := LastK(s.preRoll + chunk, 2 * c.padSamples))
            && |r.preRoll| <= 2 * c.padSamples)
      // silence while triggered: to the tail; the segment completes exactly at the threshold
      && (p < c.threshold && s.triggered ==>
            var t := s.(tailBuf := s.tailBuf + chunk, silenceRun := s.silenceRun + c.windowSize);
            r == (if t.silenceRun >= c.minSilenceSamples then Complete(c, t) else t))
  {
  }

  /** What holds between windows. */
  ghost predicate Inv(c: Config, s: SegState) {
    && |s.preRoll| <= 2 * c.padSamples
    && (s.triggered ==> s.preRoll == [] && s.segBuf != [] && (s.silenceRun == 0 || s.silenceRun < c.minSilenceSamples))
    && (!s.triggered ==> s.segBuf == [] && s.tailBuf == [] && s.silenceRun == 0)
    && s.idx == |s.saved|
    && (forall i :: 0 <= i < |s.saved| ==> s.saved[i] != [])
  }

  lemma InitialInv(c: Config)
    ensures Inv(c, Initial())
  {
  }

  lemma StepInv(c: Config, s: SegState, p: real, chunk: seq<Byte>)
    requires Inv(c, s) && |chunk| > 0
    ensures Inv(c, WindowStep(c, s, p, chunk))
    ensures |s.saved| <= |WindowStep(c, s, p, chunk).saved|
    ensures WindowStep(c, s, p, chunk).saved[..|s.saved|] == s.saved
  {
    var r := WindowStep(c, s, p, chunk);
    if p < c.threshold && s.triggered {
      var t := s.(tailBuf := s.tailBuf + chunk, silenceRun := s.silenceRun + c.windowSize);
      if t.silenceRun >= c.minSilenceSamples {
        CompleteProps(c, t);
        assert r.saved[|s.saved|][..|t.segBuf|] == t.segBuf;
      }
    }
  }

  /** `push_samples` keeps the invariant and only ever appends to the saved
      segments. */
  lemma {:induction false} DrainInv(c: Config, s: SegState, model: seq<real> -> real)
    requires c.windowSize > 0 && Inv(c, s)
    ensures Inv(c, Drain(c, s, model))
    ensures |s.saved| <= |Drain(c, s, model).saved|
    ensures Drain(c, s, model).saved[..|s.saved|] == s.saved
    decreases |s.floatResid|
  {
    var w := c.windowSize;
    if |s.floatResid| >= w && |s.int16Resid| >= 2 * w {
      var s1 := s.(floatResid := s.floatResid[w..], int16Resid := s.int16Resid[2 * w..]);
      var s2 := WindowStep(c, s1, model(s.floatResid[..w]), s.int16Resid[..2 * w]);
      StepInv(c, s1, model(s.floatResid[..w]), s.int16Resid[..2 * w]);
      DrainInv(c, s2, model);
      var r := Drain(c, s2, model);
      assert r.saved[..|s.saved|] == r.saved[..|s2.saved|][..|s.saved|];
    }
  }

  lemma SuffixOfSuffix<T>(xs: seq<T>, d: nat, k: nat)
    requires d + k <= |xs|
    ensures xs[d..][|xs| - d - k..] == xs[|xs| - k..]
  {
  }

  /** One turn of the `push_samples` loop, seen from the residuals. */
  lemma DrainUnfold(c: Config, s: SegState, model: seq<real> -> real)
    requires c.windowSize > 0
    requires |s.floatResid| >= c.windowSize && |s.int16Resid| >= 2 * c.windowSize
    ensures var w := c.windowSize;
      var s2 := WindowStep(c, s.(floatResid := s.floatResid[w..], int16Resid := s.int16Resid[2 * w..]),
                           model(s.floatResid[..w]), s.int16Resid[..2 * w]);
      && s2.floatResid == s.floatResid[w..] && s2.int16Resid == s.int16Resid[2 * w..]
      && Drain(c, s, model) == Drain(c, s2, model)
  {
  }

  /** One turn of the loop, with the state after the window given. */
  lemma DrainStep(c: Config, s: SegState, next: SegState, model: seq<real> -> real)
    requires c.windowSize > 0
    requires |s.floatResid| >= c.windowSize && |s.int16Resid| >= 2 * c.windowSize
    requires next == WindowStep(c, s.(floatResid := s.floatResid[c.windowSize..], int16Resid := s.int16Resid[2 * c.windowSize..]),
                                model(s.floatResid[..c.windowSize]), s.int16Resid[..2 * c.windowSize])
    ensures Drain(c, s, model) == Drain(c, next, model)
  {
  }

  /** The residuals `push_samples` leaves behind, computed on the residuals alone. */
  function Leftover(w: nat, f: seq<real>, b: seq<Byte>): (seq<real>, seq<Byte>)
    requires w > 0
    decreases |f|
  {
    if |f| >= w && |b| >= 2 * w then Leftover(w, f[w..], b[2 * w..]) else (f, b)
  }

  /** The windows never depend on the segmenter's state: what is left over is
      a function of the residuals alone. */
  lemma {:induction false} DrainResiduals(c: Config, s: SegState, model: seq<real> -> real)
    requires c.windowSize > 0
    ensures var r := Drain(c, s, model);
      (r.floatResid, r.int16Resid) == Leftover(c.windowSize, s.floatResid, s.int16Resid)
    decreases |s.floatResid|
  {
    var w := c.windowSize;
    var f, b := s.floatResid, s.int16Resid;
    if |f| >= w && |b| >= 2 * w {
      var s2 := WindowStep(c, s.(floatResid := f[w..], int16Resid := b[2 * w..]), model(f[..w]), b[..2 * w]);
      DrainUnfold(c, s, model);
      DrainResiduals(c, s2, model);
    }
  }

  /** The leftovers are the unconsumed tails of both residuals, in order, too
      short for another window; each window took W floats and 2W bytes. */
  lemma {:induction false} LeftoverSuffix(w: nat, f: seq<real>, b: seq<Byte>)
    requires w > 0
    ensures var (rf, rb) := Leftover(w, f, b);
      && |rf| <= |f| && |rb| <= |b|
      && rf == f[|f| - |rf|..] && rb == b[|b| - |rb|..]
      && |f| - |rf| == WindowFloats(w, |f|, |b|)
      && |b| - |rb| == 2 * (|f| - |rf|)
      && (|rf| < w || |rb| < 2 * w)
    decreases |f|
  {
    if |f| >= w && |b| >= 2 * w {
      var f1, b1 := f[w..], b[2 * w..];
      LeftoverSuffix(w, f1, b1);
      var (rf, rb) := Leftover(w, f1, b1);
      assert Leftover(w, f, b) == (rf, rb);
      assert WindowFloats(w, |f|, |b|) == w + WindowFloats(w, |f1|, |b1|);
      SuffixOfSuffix(f, w, |rf|);
      SuffixOfSuffix(b, 2 * w, |rb|);
    }
  }

  /** Empty input to `push_samples` changes nothing, even if bytes came with it. */
  lemma PushEmpty(c: Config, s: SegState, i16: seq<Byte>, model: seq<real> -> real)
    requires c.windowSize > 0
    ensures PushSpec(c, s, [], i16, model) == s
  {
  }

  /** `flush` keeps the invariant, leaves the segmenter idle, and writes a
      segment exactly when one is open. */
  lemma FlushInv(c: Config, s: SegState)
    requires Inv(c, s)
    ensures var r := FlushSpec(c, s);
      && Inv(c, r) && !r.triggered
      && |r.saved| == |s.saved| + (if s.triggered then 1 else 0)
  {
    if s.segBuf != [] {
      var r := Complete(c, s);
      CompleteProps(c, s);
      assert r.saved[|s.saved|][..|s.segBuf|] == s.segBuf;
      assert r.saved[|s.saved|] != [];
    }
  }

  // ---------------------------------------------------------------------------
  // SileroVADSegmenter: the object

  class SileroVadSegmenter {
    const sr: nat
    const threshold: real
    const minSilenceSamples: nat
    const padSamples: nat
    const windowSize: nat

    var triggered: bool
    var silenceRun: nat
    var preRoll: seq<Byte>
    var segBuf: seq<Byte>
    var tailBuf: seq<Byte>
    var floatResid: seq<real>
    var int16Resid: seq<Byte>
    var idx: nat
    /** PCM content of every segment written so far, in order. */
    var saved: seq<seq<Byte>>

    function Cfg(): Config {
      Config(threshold, minSilenceSamples, padSamples, windowSize)
    }

    function State(): SegState
      reads this
    {
      SegState(triggered, silenceRun, preRoll, segBuf, tailBuf, floatResid, int16Resid, idx, saved)
    }

    /** Durations are converted to whole samples (`int(sr * ms / 1000)`); a
        window size of 0 would make `push_samples` loop forever. */
    constructor (threshold: real, sr: nat, minSilenceMs: nat, padMs: nat, windowSize: nat)
      requires windowSize > 0
      ensures this.sr == sr && this.threshold == threshold && this.windowSize == windowSize
      ensures minSilenceSamples == sr * minSilenceMs / 1000 && padSamples == sr * padMs / 1000
      ensures State() == Initial() && Inv(Cfg(), State())
    {
      this.sr := sr;
      this.threshold := threshold;
      this.minSilenceSamples := sr * minSilenceMs / 1000;
      this.padSamples := sr * padMs / 1000;
      this.windowSize := windowSize;
      triggered, silenceRun := false, 0;
      preRoll, segBuf, tailBuf := [], [], [];
      floatResid, int16Resid := [], [];
      idx, saved := 0, [];
    }

    method Reset()
      modifies this
      ensures State() == ResetState(old(State()))
    {
      triggered := false;
      silenceRun := 0;
      segBuf := [];
      tailBuf := [];
    }

    /** Returns the index the written segment's file name carries, or None
        where the source returns "". */
    method OnSegmentComplete() returns (written: Option<nat>)
      modifies this
      ensures State() == Complete(Cfg(), old(State()))
      ensures written == if old(segBuf) == [] then None else Some(old(idx))
    {
      if segBuf == [] {
        Reset();
        return None;
      }
      ghost var seg := segBuf + tailBuf[..Min(padSamples, |tailBuf| / 2) * 2];
      if |tailBuf| > 0 {
        var keep := Min(padSamples, |tailBuf| / 2);
        if keep > 0 {
          segBuf := segBuf + tailBuf[..keep * 2];
        } else {
          assert segBuf + tailBuf[..keep * 2] == segBuf;
        }
        tailBuf := [];
      } else {
        assert seg == segBuf;
      }
      assert segBuf == seg;
      saved := saved + [segBuf];
      written := Some(idx);
      idx := idx + 1;
      Reset();
    }

    method PushSamples(f32: seq<real>, i16: seq<Byte>, model: seq<real> -> real)
      requires windowSize > 0
      modifies this
      ensures State() == PushSpec(Cfg(), old(State()), f32, i16, model)
    {
      ghost var target := PushSpec(Cfg(), State(), f32, i16, model);
      if |f32| == 0 {
        return;
      }
      floatResid := floatResid + f32;
      int16Resid := int16Resid + i16;
      var w := windowSize;
      var b := w * 2;
      while |floatResid| >= w && |int16Resid| >= b
        invariant Drain(Cfg(), State(), model) == target
        decreases |floatResid|
      {
        ghost var s := State();
        var chunkF := floatResid[..w];
        floatResid := floatResid[w..];
        var chunkB := int16Resid[..b];
        int16Resid := int16Resid[b..];
        assert State() == s.(floatResid := s.floatResid[w..], int16Resid := s.int16Resid[2 * w..]);
        ProcessWindow(model(chunkF), chunkB);
        DrainStep(Cfg(), s, State(), model);
      }
    }

    /** The body of the `push_samples` loop once the window is cut off. */
    method ProcessWindow(p: real, chunkB: seq<Byte>)
      modifies this
      ensures State() == WindowStep(Cfg(), old(State()), p, chunkB)
      ensures floatResid == old(floatResid) && int16Resid == old(int16Resid)
    {
      var w := windowSize;
      ghost var s0 := State();
      if p >= threshold {
        if !triggered {
          if |preRoll| > 0 {
            segBuf := segBuf + preRoll;
            preRoll := [];
          }
          triggered := true;
          silenceRun := 0;
        }
        ghost var s1 := State();
        assert s1 == if !s0.triggered then s0.(segBuf := s0.segBuf + s0.preRoll, preRoll := [], triggered := true, silenceRun := 0) else s0;
        if |tailBuf| > 0 {
          segBuf := segBuf + tailBuf;
          tailBuf := [];
        }
        segBuf := segBuf + chunkB;
        assert segBuf == s1.segBuf + s1.tailBuf + chunkB;
      } else if !triggered {
        preRoll := preRoll + chunkB;
        var maxBytes := padSamples * 2;
        var extra := |preRoll| - maxBytes;
        if extra > 0 {
          preRoll := preRoll[extra..];
        }
      } else {
        tailBuf := tailBuf + chunkB;
        silenceRun := silenceRun + w;
        assert State() == s0.(tailBuf := s0.tailBuf + chunkB, silenceRun := s0.silenceRun + Cfg().windowSize);
        if silenceRun >= minSilenceSamples {
          var _ := OnSegmentComplete();
        }
      }
    }


    method Flush()
      modifies this
      ensures State() == FlushSpec(Cfg(), old(State()))
    {
      if segBuf != [] {
        var _ := OnSegmentComplete();
      }
    }
  }
}
