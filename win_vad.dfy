/** `archive/test_record_win_vad.py`: the Windows loopback prototype that
    records at 48 kHz, runs Silero VAD on a 16 kHz copy in 512-sample frames
    with a 5-frame moving average, and writes speech segments (with pre- and
    post-padding chunks) to their own files through `SegmentWriter`.

    A recorded block (`rec.record(numframes=CHUNK_FRAMES)`) is a
    frames-by-channels `Block`; a file is the sequence of blocks written to
    it. The VAD model and `resample_poly` are inputs (`model`, `poly`); file
    names, time stamps and sound-file handles are not modelled. */
module WinVad {
  import opened Common
  import opened ChunkSegmentation

  type Block = seq<seq<real>>

  // ---------------------------------------------------------------------------
  // Parameters and derived counts

  const SampleRate: nat := 48000
  const VadSampleRate: nat := 16000
  const ChunkDur: real := 0.05
  const VadThreshold: real := 0.5
  const EndSilenceSec: real := 1.0
  const PrePadSec: real := 0.20
  const PostPadSec: real := 0.20
  const ProbSmoothWin: nat := 5

  /** `math.gcd` by Euclid's algorithm. */
  function Gcd(a: nat, b: nat): nat
    decreases b
  {
    if b == 0 then a else Gcd(b, a % b)
  }

  /** The gcd divides both arguments (the cofactors are returned) and is
      positive unless both are zero. */
  lemma {:induction false} GcdDivides(a: nat, b: nat) returns (ka: nat, kb: nat)
    ensures a == Gcd(a, b) * ka && b == Gcd(a, b) * kb
    ensures a > 0 || b > 0 ==> Gcd(a, b) > 0
    decreases b
  {
    if b == 0 {
      if a == 0 {
        ka, kb := 0, 0;
      } else {
        ka, kb := 1, 0;
      }
    } else {
      var k1, k2 := GcdDivides(b, a % b);
      Combine(a, b, a / b, Gcd(b, a % b), k1, k2);
      ka, kb := a / b * k1 + k2, k1;
    }
  }

  /** `a = q b + a mod b` with both `b` and `a mod b` multiples of `g`. */
  lemma Combine(a: nat, b: nat, q: nat, g: nat, k1: nat, k2: nat)
    requires b > 0 && q == a / b && b == g * k1 && a % b == g * k2
    ensures a == g * (q * k1 + k2)
  {
    calc {
      g * (q * k1 + k2);
      g * (q * k1) + g * k2;
      (g * k1) * q + g * k2;
      b * q + a % b;
      a;
    }
  }

  lemma {:induction false} MulDiv(g: nat, k: nat)
    requires g > 0
    ensures (g * k) / g == k
  {
    if k > 0 {
      MulDiv(g, k - 1);
      assert g * k == g * (k - 1) + g;
      assert (g * (k - 1) + g) / g == (g * (k - 1)) / g + 1;
    }
  }

  /** The gcd of two naturals, not both zero, is positive and divides both. */
  lemma GcdDividesBoth(a: nat, b: nat)
    requires a > 0 || b > 0
    ensures Gcd(a, b) > 0
    ensures a == Gcd(a, b) * (a / Gcd(a, b)) && b == Gcd(a, b) * (b / Gcd(a, b))
  {
    var g := Gcd(a, b);
    var ka, kb := GcdDivides(a, b);
    MulDiv(g, ka);
    MulDiv(g, kb);
  }

  /** The factors `rational_resample` hands to `resample_poly`:
      `up = dst // g`, `down = src // g` with `g = gcd(src, dst)`. */
  function ResampleFactors(src: nat, dst: nat): (r: (nat, nat))
    requires src > 0 && dst > 0
    ensures r.0 > 0 && r.1 > 0
    ensures r.0 * src == r.1 * dst
  {
    GcdDividesBoth(src, dst);
    var g := Gcd(src, dst);
    CrossMultiply(src, dst, g, src / g, dst / g);
    (dst / g, src / g)
  }

  /** Two multiples of `g` cross-multiplied by their cofactors agree. */
  lemma CrossMultiply(src: nat, dst: nat, g: nat, ks: nat, kd: nat)
    requires src == g * ks && dst == g * kd
    ensures kd * src == ks * dst
    ensures src > 0 ==> ks > 0
    ensures dst > 0 ==> kd > 0
  {
    calc {
      kd * src;
      kd * (g * ks);
      ks * (g * kd);
      ks * dst;
    }
  }

  /** 48 kHz to 16 kHz is `up = 1`, `down = 3`. */
  lemma DefaultResampleFactors()
    ensures ResampleFactors(SampleRate, VadSampleRate) == (1, 3)
  {
    assert Gcd(48000, 16000) == 16000 by {
      assert 48000 % 16000 == 0;
      assert Gcd(16000, 0) == 16000;
    }
  }

  /** `rational_resample(x, src_sr, dst_sr)`. */
  function RationalResample(x: seq<real>, src: nat, dst: nat, poly: (seq<real>, nat, nat) -> seq<real>): seq<real>
    requires src > 0 && dst > 0
  {
    var f := ResampleFactors(src, dst);
    poly(x, f.0, f.1)
  }

  /** `math.ceil`. */
  function Ceil(x: real): (r: int)
    ensures (r - 1) as real < x <= r as real
  {
    -((-x).Floor)
  }

  /** Python's `round` to an integer: to nearest, ties to even. */
  function Round(x: real): (r: int)
    ensures x - 0.5 <= r as real <= x + 0.5
  {
    var f := x.Floor;
    var d := x - f as real;
    if d < 0.5 then f else if d > 0.5 then f + 1 else if f % 2 == 0 then f else f + 1
  }

  datatype Counts = Counts(chunkFrames: nat, preChunks: nat, postChunks: nat, endSilenceFrames: nat, vadWin: nat)

  /** The derived parameters of `main`. */
  function DerivedCounts(sr: nat, chunkDur: real, prePad: real, postPad: real, endSilence: real, vadSr: nat): (c: Counts)
    requires chunkDur > 0.0 && vadSr > 0
    ensures c.chunkFrames >= 1 && c.preChunks >= 1 && c.postChunks >= 1 && c.endSilenceFrames >= 1
    ensures c.vadWin == (if vadSr == 16000 then 512 else 256)
    ensures c.preChunks as real >= prePad / chunkDur && c.postChunks as real >= postPad / chunkDur
    ensures c.endSilenceFrames as real * (c.vadWin as real / vadSr as real) >= endSilence
  {
    var vadWin: nat := if vadSr == 16000 then 512 else 256;
    var frameDur := vadWin as real / vadSr as real;
    var esf := Max(1, Ceil(endSilence / frameDur));
    assert esf as real * frameDur >= endSilence by {
      assert esf as real >= endSilence / frameDur;
    }
    Counts(Max(1, Round(sr as real * chunkDur)), Max(1, Ceil(prePad / chunkDur)),
           Max(1, Ceil(postPad / chunkDur)), esf, vadWin)
  }

  /** With the constants of the script: 2400-sample blocks, 4 pre-pad and 4
      post-pad blocks, 32 silent frames (about 1 s) to close a segment. */
  lemma DefaultCounts()
    ensures DerivedCounts(SampleRate, ChunkDur, PrePadSec, PostPadSec, EndSilenceSec, VadSampleRate)
      == Counts(2400, 4, 4, 32, 512)
  {
    assert SampleRate as real * ChunkDur == 2400.0;
    assert Round(2400.0) == 2400 by {
      assert (2400.0).Floor == 2400;
    }
    assert PrePadSec / ChunkDur == 4.0;
    assert Ceil(4.0) == 4 by {
      assert (-4.0).Floor == -4;
    }
    assert EndSilenceSec / (512 as real / 16000 as real) == 31.25;
    assert Ceil(31.25) == 32 by {
      assert (-31.25).Floor == -32;
    }
  }

  // ---------------------------------------------------------------------------
  // SegmentWriter

  /** What the writer holds: whether a segment file is open, the blocks
      written to it, `seg_idx`, and the contents of the closed files. */
  datatype WriterState = WriterState(open: bool, current: seq<Block>, segIdx: nat, closed: seq<seq<Block>>)

  function WStart(w: WriterState, pre: seq<Block>): WriterState {
    if w.open then w else WriterState(true, pre, w.segIdx + 1, w.closed)
  }

  function WWrite(w: WriterState, b: Block): WriterState {
    if w.open then w.(current := w.current + [b]) else w
  }

  function WClose(w: WriterState, post: seq<Block>, postpad: nat): WriterState {
    if !w.open then w
    else WriterState(false, [], w.segIdx, w.closed + [w.current + post[..Min(postpad, |post|)]])
  }

  /** The writer's calls: `start` is a no-op while a file is open, `write` and
      `close_with_postpad` are no-ops while none is; closing writes only the
      first `min(postpad, len(post))` trailing blocks; `seg_idx` counts the
      files ever opened. */
  lemma WriterCalls(w: WriterState, pre: seq<Block>, b: Block, post: seq<Block>, postpad: nat)
    requires w.segIdx == |w.closed| + (if w.open then 1 else 0)
    ensures w.open ==> WStart(w, pre) == w
    ensures !w.open ==> WWrite(w, b) == w && WClose(w, post, postpad) == w
    ensures !w.open ==> WStart(w, pre).open && WStart(w, pre).current == pre
    ensures w.open ==> (|WClose(w, post, postpad).closed| == |w.closed| + 1
      && WClose(w, post, postpad).closed[|w.closed|] == w.current + post[..Min(postpad, |post|)])
    ensures var w1 := WStart(w, pre); w1.segIdx == |w1.closed| + (if w1.open then 1 else 0)
    ensures var w2 := WClose(w, post, postpad); w2.segIdx == |w2.closed| + (if w2.open then 1 else 0)
  {
  }

  class SegmentWriter {
    var isOpen: bool
    var current: seq<Block>
    var segIdx: nat
    var closed: seq<seq<Block>>

    function State(): WriterState
      reads this
    {
      WriterState(isOpen, current, segIdx, closed)
    }

    constructor ()
      ensures State() == WriterState(false, [], 0, [])
    {
      isOpen, current, segIdx, closed := false, [], 0, [];
    }

    /** `start(pre_chunks)`: open a new file and write the pre-roll blocks. */
    method Start(preChunks: seq<Block>)
      modifies this
      ensures State() == WStart(old(State()), preChunks)
    {
      if isOpen {
        return;
      }
      segIdx := segIdx + 1;
      isOpen := true;
      current := [];
      for i := 0 to |preChunks|
        invariant isOpen && current == preChunks[..i]
        invariant segIdx == old(segIdx) + 1 && closed == old(closed)
      {
        current := current + [preChunks[i]];
        assert preChunks[..i + 1] == preChunks[..i] + [preChunks[i]];
      }
      assert preChunks[..|preChunks|] == preChunks;
    }

    /** `write(chunk)`. */
    method Write(b: Block)
      modifies this
      ensures State() == WWrite(old(State()), b)
    {
      if isOpen {
        current := current + [b];
      }
    }

    /** `close_with_postpad(post_chunks, postpad_chunks)`. */
    method CloseWithPostpad(post: seq<Block>, postpad: nat)
      modifies this
      ensures State() == WClose(old(State()), post, postpad)
    {
      if !isOpen {
        return;
      }
      var n := Min(postpad, |post|);
      for i := 0 to n
        invariant current == old(current) + post[..i]
        invariant isOpen && segIdx == old(segIdx) && closed == old(closed)
      {
        current := current + [post[i]];
        assert post[..i + 1] == post[..i] + [post[i]];
      }
      closed := closed + [current];
      isOpen := false;
      current := [];
    }
  }

  // ---------------------------------------------------------------------------
  // The frame loop: 512-sample frames of the 16 kHz buffer

  /** `vad16k_buf`, `prob_hist_frames`, `silence_frames_run`, and whether a
      speech frame was seen in this block. */
  datatype VadState = VadState(buf: seq<real>, hist: seq<real>, run: nat, speech: bool)

  function Mean(xs: seq<real>): real
    requires |xs| > 0
  {
    SumOf(xs) / (|xs| as real)
  }

  /** One frame: the probability joins the 5-frame window; the frame is
      speech iff the window's mean reaches the threshold. */
  function FrameStep(v: VadState, win: nat, threshold: real, p: real): (r: VadState)
    requires |v.buf| >= win
  {
    var h := LastK(v.hist + [p], ProbSmoothWin);
    var sp := Mean(h) >= threshold;
    VadState(v.buf[win..], h, if sp then 0 else v.run + 1, v.speech || sp)
  }

  /** The whole `while vad16k_buf.size >= VAD_WIN` loop. */
  function VadFrames(v: VadState, win: nat, threshold: real, model: seq<real> -> real): VadState
    requires win > 0
    decreases |v.buf|
  {
    if |v.buf| < win then v
    else VadFrames(FrameStep(v, win, threshold, model(v.buf[..win])), win, threshold, model)
  }

  /** Each frame: a speech frame resets the silent-frame run, any other adds
      one; the window keeps at most the last five probabilities. */
  lemma FrameStepCases(v: VadState, win: nat, threshold: real, p: real)
    requires |v.buf| >= win
    ensures var r := FrameStep(v, win, threshold, p);
      && |r.hist| <= ProbSmoothWin && r.hist[|r.hist| - 1] == p
      && r.hist == (v.hist + [p])[|v.hist| + 1 - |r.hist|..]
      && (Mean(r.hist) >= threshold ==> r.run == 0 && r.speech)
      && (Mean(r.hist) < threshold ==> r.run == v.run + 1 && r.speech == v.speech)
      && r.buf == v.buf[win..]
  {
  }

  /** The loop consumes whole frames (`n` of them) from the front and leaves
      fewer than one frame for the next block; with no speech frame the run
      grows by the number of frames consumed; the window stays within five. */
  lemma {:induction false} VadFramesLeftover(v: VadState, win: nat, threshold: real, model: seq<real> -> real) returns (n: nat)
    requires win > 0 && |v.hist| <= ProbSmoothWin
    ensures var r := VadFrames(v, win, threshold, model);
      && |r.buf| < win && |v.buf| == n * win + |r.buf|
      && r.buf == v.buf[n * win..]
      && |r.hist| <= ProbSmoothWin
      && (v.speech ==> r.speech)
      && (!r.speech ==> r.run == v.run + n)
    decreases |v.buf|
  {
    if |v.buf| < win {
      n := 0;
    } else {
      var v1 := FrameStep(v, win, threshold, model(v.buf[..win]));
      var m := VadFramesLeftover(v1, win, threshold, model);
      n := m + 1;
      assert n * win == m * win + win;
      assert v1.buf == v.buf[win..];
      assert v.buf[win..][m * win..] == v.buf[n * win..];
    }
  }

  /** The `while vad16kBuf.size >= VAD_WIN` loop itself. */
  method RunFrames(v: VadState, win: nat, threshold: real, model: seq<real> -> real) returns (r: VadState)
    requires win > 0
    ensures r == VadFrames(v, win, threshold, model)
  {
    var buf, hist, run, speech := v.buf, v.hist, v.run, v.speech;
    while |buf| >= win
      invariant VadFrames(VadState(buf, hist, run, speech), win, threshold, model) == VadFrames(v, win, threshold, model)
      decreases |buf|
    {
      var frame := buf[..win];
      buf := buf[win..];
      var prob := model(frame);
      hist := LastK(hist + [prob], ProbSmoothWin);
      var avgProb := Mean(hist);
      if avgProb >= threshold {
        speech := true;
        run := 0;
      } else {
        run := run + 1;
      }
    }
    r := VadState(buf, hist, run, speech);
  }

  // ---------------------------------------------------------------------------
  // The block loop

  /** The loop's state: the full recording, `in_speech`, the block deques and
      the frame state, and the segment writer. */
  datatype Session = Session(full: seq<Block>, inSpeech: bool, pre: seq<Block>, post: seq<Block>, vad: VadState, w: WriterState)

  function InitialSession(): Session {
    Session([], false, [], [], VadState([], [], 0, false), WriterState(false, [], 0, []))
  }

  /** Lines 186-187 as written: `start(list(pre_buffer))` writes the pre-roll,
      which already ends with the current block, then `write(data)` writes the
      current block a second time. */
  function StartSegmentAsWritten(w: WriterState, pre: seq<Block>, data: Block): WriterState {
    WWrite(WStart(w, pre), data)
  }

  /** The segment start as intended: the pre-roll, which ends with the current
      block, each block once. */
  function StartSegment(w: WriterState, pre: seq<Block>): WriterState {
    WStart(w, pre)
  }

  /** `for ch in post_silence_buffer: seg_writer.write(ch)`. */
  function WriteAll(w: WriterState, bs: seq<Block>): (r: WriterState)
    ensures w.open ==> r == w.(current := w.current + bs)
    ensures !w.open ==> r == w
    decreases |bs|
  {
    if bs == [] then w
    else
      var r := WriteAll(WWrite(w, bs[0]), bs[1..]);
      assert bs == [bs[0]] + bs[1..];
      r
  }

  /** Lines 182-206 for one block, after the frame loop has set the run and
      the speech flag in `s.vad`. */
  function SegStep(c: Counts, s: Session, data: Block): Session {
    var pre := LastK(s.pre + [data], c.preChunks);
    var hasSpeech := s.vad.speech;
    if !s.inSpeech then
      if hasSpeech then s.(pre := pre, w := StartSegment(s.w, pre), inSpeech := true, post := [])
      else s.(pre := pre)
    else if hasSpeech then
      s.(pre := pre, w := WWrite(WriteAll(s.w, s.post), data), post := [])
    else
      var post := s.post + [data];
      if s.vad.run >= c.endSilenceFrames then
        s.(pre := pre, w := WClose(s.w, post, c.postChunks), inSpeech := false, vad := s.vad.(run := 0), post := [])
      else s.(pre := pre, post := post)
  }

  /** One block of the `while True` loop: it joins the full recording, its
      16 kHz copy runs through the frame loop, then the segment logic runs. */
  function ChunkStep(c: Counts, s: Session, data: Block, vadChunk: seq<real>, threshold: real, model: seq<real> -> real): Session
    requires c.vadWin > 0
  {
    var v := VadFrames(s.vad.(buf := s.vad.buf + vadChunk, speech := false), c.vadWin, threshold, model);
    SegStep(c, s.(full := s.full + [data], vad := v), data)
  }

  /** `seq` is the last `|seq|` blocks of the recording. */
  predicate EndsWith(full: seq<Block>, tail: seq<Block>) {
    |tail| <= |full| && full[|full| - |tail|..] == tail
  }

  /** `file` occurs as consecutive blocks of the recording. */
  ghost predicate IsSlice(full: seq<Block>, file: seq<Block>) {
    exists i :: SliceAt(full, file, i)
  }

  predicate SliceAt(full: seq<Block>, file: seq<Block>, i: int) {
    0 <= i && i + |file| <= |full| && full[i..i + |file|] == file
  }

  /** What holds between blocks: the pre-roll is the end of the recording;
      outside speech no file is open and nothing waits; inside speech the
      open file plus the waiting silent blocks are the end of the recording;
      every closed file is a stretch of consecutive recorded blocks; `seg_idx`
      counts the files opened. */
  ghost predicate SessionInv(c: Counts, s: Session) {
    && EndsWith(s.full, s.pre) && |s.pre| <= c.preChunks
    && (!s.inSpeech ==> !s.w.open && s.post == [])
    && (s.inSpeech ==> s.w.open && EndsWith(s.full, s.w.current + s.post))
    && ClosedSlices(s.full, s.w.closed)
    && s.w.segIdx == |s.w.closed| + (if s.w.open then 1 else 0)
    && |s.vad.hist| <= ProbSmoothWin
  }

  ghost predicate ClosedSlices(full: seq<Block>, closed: seq<seq<Block>>) {
    forall k :: 0 <= k < |closed| ==> IsSlice(full, closed[k])
  }

  lemma InitialSessionInv(c: Counts)
    ensures SessionInv(c, InitialSession())
  {
  }

  lemma SliceGrows(full: seq<Block>, file: seq<Block>, more: seq<Block>)
    requires IsSlice(full, file)
    ensures IsSlice(full + more, file)
  {
    var i :| SliceAt(full, file, i);
    assert (full + more)[i..i + |file|] == file;
    assert SliceAt(full + more, file, i);
  }

  lemma ClosedSlicesGrow(full: seq<Block>, closed: seq<seq<Block>>, b: Block)
    requires ClosedSlices(full, closed)
    ensures ClosedSlices(full + [b], closed)
  {
    forall k | 0 <= k < |closed| ensures IsSlice(full + [b], closed[k]) {
      SliceGrows(full, closed[k], [b]);
    }
  }

  lemma ClosedSlicesAdd(full: seq<Block>, closed: seq<seq<Block>>, file: seq<Block>)
    requires ClosedSlices(full, closed) && IsSlice(full, file)
    ensures ClosedSlices(full, closed + [file])
  {
    forall k | 0 <= k < |closed| + 1 ensures IsSlice(full, (closed + [file])[k]) {
      if k < |closed| {
        assert (closed + [file])[k] == closed[k];
      }
    }
  }

  lemma EndsWithSnoc(full: seq<Block>, tail: seq<Block>, b: Block)
    requires EndsWith(full, tail)
    ensures EndsWith(full + [b], tail + [b])
  {
    assert (full + [b])[|full + [b]| - |tail + [b]|..] == full[|full| - |tail|..] + [b];
  }

  lemma EndsWithLastK(full: seq<Block>, tail: seq<Block>, k: nat)
    requires EndsWith(full, tail)
    ensures EndsWith(full, LastK(tail, k))
  {
    var r := LastK(tail, k);
    assert full[|full| - |r|..] == full[|full| - |tail|..][|tail| - |r|..];
  }

  lemma EndsWithSlice(full: seq<Block>, tail: seq<Block>, n: nat)
    requires EndsWith(full, tail) && n <= |tail|
    ensures IsSlice(full, tail[..n])
  {
    var i := |full| - |tail|;
    assert full[i..i + n] == tail[..n];
    assert SliceAt(full, tail[..n], i);
  }

  /** A segment's closing keeps the invariant: the closed file is the open
      file plus the first post-pad blocks, consecutive in the recording. */
  lemma CloseKeepsSlices(c: Counts, full: seq<Block>, w: WriterState, post: seq<Block>)
    requires w.open && EndsWith(full, w.current + post) && ClosedSlices(full, w.closed)
    ensures ClosedSlices(full, WClose(w, post, c.postChunks).closed)
  {
    var n := Min(c.postChunks, |post|);
    assert w.current + post[..n] == (w.current + post)[..|w.current| + n];
    EndsWithSlice(full, w.current + post, |w.current| + n);
    ClosedSlicesAdd(full, w.closed, w.current + post[..n]);
  }

  /** Each block keeps the invariant: in particular every closed segment
      file holds consecutive recorded blocks, each once. `v` is the frame
      state after the block's frame loop. */
  lemma SegStepInv(c: Counts, s: Session, data: Block, v: VadState)
    requires SessionInv(c, s) && |v.hist| <= ProbSmoothWin
    ensures SessionInv(c, SegStep(c, s.(full := s.full + [data], vad := v), data))
  {
    var full := s.full + [data];
    EndsWithSnoc(s.full, s.pre, data);
    EndsWithLastK(full, s.pre + [data], c.preChunks);
    ClosedSlicesGrow(s.full, s.w.closed, data);
    if s.inSpeech {
      EndsWithSnoc(s.full, s.w.current + s.post, data);
      assert s.w.current + s.post + [data] == s.w.current + (s.post + [data]);
      if !v.speech && v.run >= c.endSilenceFrames {
        CloseKeepsSlices(c, full, s.w, s.post + [data]);
      }
    }
  }

  /** The block loop keeps the invariant. */
  lemma ChunkStepInv(c: Counts, s: Session, data: Block, vadChunk: seq<real>, threshold: real, model: seq<real> -> real)
    requires c.vadWin > 0 && SessionInv(c, s)
    ensures SessionInv(c, ChunkStep(c, s, data, vadChunk, threshold, model))
  {
    var v0 := s.vad.(buf := s.vad.buf + vadChunk, speech := false);
    var _ := VadFramesLeftover(v0, c.vadWin, threshold, model);
    SegStepInv(c, s, data, VadFrames(v0, c.vadWin, threshold, model));
  }

  /** As written, a segment that starts on the very first block is written
      as that block twice, which is not a stretch of the one-block
      recording. */
  lemma AsWrittenDuplicatesStartBlock(c: Counts, data: Block)
    requires c.preChunks >= 1
    ensures var w := StartSegmentAsWritten(InitialSession().w, LastK([data], c.preChunks), data);
      && w.current == [data, data]
      && !EndsWith([data], w.current)
  {
    assert LastK([data], c.preChunks) == [data];
    assert [data] + [data] == [data, data];
  }

  /** `finally`: a segment still open at shutdown is closed under the same
      post-pad rule, and no file is left open. */
  function Shutdown(c: Counts, s: Session): (r: Session)
    requires SessionInv(c, s)
    ensures !r.w.open
    ensures s.inSpeech ==> r.w.closed == s.w.closed + [s.w.current + s.post[..Min(c.postChunks, |s.post|)]]
    ensures !s.inSpeech ==> r == s
  {
    if s.inSpeech then s.(w := WClose(s.w, s.post, c.postChunks)) else s
  }

  /** The loop of `main` with its locals as fields. */
  class LoopbackSession {
    const counts: Counts
    const threshold: real
    var full: seq<Block>
    var inSpeech: bool
    var preBuffer: seq<Block>
    var postSilenceBuffer: seq<Block>
    var vad16kBuf: seq<real>
    var probHist: seq<real>
    var silenceFramesRun: nat
    var chunkHasSpeech: bool
    const writer: SegmentWriter

    function State(): Session
      reads this, writer
    {
      Session(full, inSpeech, preBuffer, postSilenceBuffer,
              VadState(vad16kBuf, probHist, silenceFramesRun, chunkHasSpeech), writer.State())
    }

    constructor (counts: Counts, threshold: real)
      requires counts.vadWin > 0
      ensures this.counts == counts && this.threshold == threshold
      ensures State() == InitialSession() && fresh(writer)
    {
      this.counts := counts;
      this.threshold := threshold;
      full, inSpeech, preBuffer, postSilenceBuffer := [], false, [], [];
      vad16kBuf, probHist, silenceFramesRun, chunkHasSpeech := [], [], 0, false;
      writer := new SegmentWriter();
    }

    /** The frame loop over the 16 kHz buffer. */
    method FeedVad(vadChunk: seq<real>, model: seq<real> -> real)
      requires counts.vadWin > 0
      modifies this
      ensures State() == old(State()).(vad := VadFrames(old(State()).vad.(buf := old(vad16kBuf) + vadChunk, speech := false),
                                                         counts.vadWin, threshold, model))
    {
      if |vadChunk| > 0 {
        vad16kBuf := vad16kBuf + vadChunk;
      }
      assert vad16kBuf == old(vad16kBuf) + vadChunk;
      var v := RunFrames(VadState(vad16kBuf, probHist, silenceFramesRun, false), counts.vadWin, threshold, model);
      vad16kBuf, probHist, silenceFramesRun, chunkHasSpeech := v.buf, v.hist, v.run, v.speech;
      assert writer.State() == old(writer.State());
    }

    /** Lines 182-206: the pre-roll deque, then the segment decision. */
    method Segment(data: Block)
      modifies this, writer
      ensures State() == SegStep(counts, old(State()), data)
    {
      preBuffer := LastK(preBuffer + [data], counts.preChunks);
      if !inSpeech {
        if chunkHasSpeech {
          writer.Start(preBuffer);
          inSpeech := true;
          postSilenceBuffer := [];
        }
      } else {
        if chunkHasSpeech {
          WriteAllMethod(postSilenceBuffer);
          postSilenceBuffer := [];
          writer.Write(data);
        } else {
          postSilenceBuffer := postSilenceBuffer + [data];
          if silenceFramesRun >= counts.endSilenceFrames {
            writer.CloseWithPostpad(postSilenceBuffer, counts.postChunks);
            inSpeech := false;
            silenceFramesRun := 0;
            postSilenceBuffer := [];
          }
        }
      }
    }

    /** `for ch in post_silence_buffer: seg_writer.write(ch)`. */
    method WriteAllMethod(bs: seq<Block>)
      modifies writer
      ensures writer.State() == WriteAll(old(writer.State()), bs)
    {
      for i := 0 to |bs|
        invariant writer.State() == WriteAll(old(writer.State()), bs[..i])
      {
        WriteAllSnoc(old(writer.State()), bs[..i], bs[i]);
        assert bs[..i + 1] == bs[..i] + [bs[i]];
        writer.Write(bs[i]);
      }
      assert bs[..|bs|] == bs;
    }

    /** One block `data` read from the loopback device; `poly` is
        `resample_poly`. */
    method ProcessBlock(data: Block, poly: (seq<real>, nat, nat) -> seq<real>, model: seq<real> -> real)
      requires counts.vadWin > 0
      requires forall i :: 0 <= i < |data| ==> |data[i]| > 0
      modifies this, writer
      ensures data == [] ==> State() == old(State())
      ensures data != [] ==>
        State() == ChunkStep(counts, old(State()), data,
                             RationalResample(Downmix(data), SampleRate, VadSampleRate, poly), threshold, model)
    {
      if |data| == 0 {
        return;
      }
      full := full + [data];
      var mono := Downmix(data);
      var vadChunk := RationalResample(mono, SampleRate, VadSampleRate, poly);
      FeedVad(vadChunk, model);
      Segment(data);
    }

    /** The `finally` block. */
    method Close()
      requires SessionInv(counts, State())
      modifies this, writer
      ensures State() == Shutdown(counts, old(State()))
    {
      if inSpeech {
        writer.CloseWithPostpad(postSilenceBuffer, counts.postChunks);
      }
    }
  }

  lemma WriteAllSnoc(w: WriterState, bs: seq<Block>, b: Block)
    ensures WriteAll(w, bs + [b]) == WWrite(WriteAll(w, bs), b)
  {
  }
}
