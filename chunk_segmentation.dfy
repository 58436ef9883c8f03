/** The "speech_active / silence_duration / trimmed buffer" step that the
    microphone loop and both system-audio loops run on every 512-sample chunk,
    together with the pieces the three loops share: the 100-slot non-blocking
    queue, the stereo-to-mono mean, and `_bytes_to_audio`.

    A chunk's bytes are its float32 samples (`tobytes` and `frombuffer` are
    inverse to each other), so a chunk is a `seq<real>`. Silence is counted in
    samples: `silence_duration = silence / sr`, and the 1.5 s threshold
    `silence_duration >= 1.5` is `2 * silence >= 3 * sr`. */
module ChunkSegmentation {
  import opened Common

  /** `queue.Queue(maxsize=100)`. */
  const QueueCapacity: nat := 100
  /** `blocksize=512` / `CHUNK_SIZE = 512`. */
  const ChunkSize: nat := 512

  type Chunk = seq<real>

  // ---------------------------------------------------------------------------
  // Shared helpers

  /** `_bytes_to_audio(byte_chunks)`: the chunks concatenated in order, empty
      for an empty list. */
  function BytesToAudio(chunks: seq<Chunk>): (r: seq<real>)
    ensures chunks == [] ==> r == []
    ensures |r| == TotalLength(chunks)
  {
    FlattenLength(chunks);
    Flatten(chunks)
  }

  /** Chunk `i` sits in the concatenation right after the chunks before it. */
  lemma BytesToAudioInOrder(chunks: seq<Chunk>, i: nat)
    requires i < |chunks|
    ensures var off := TotalLength(chunks[..i]);
      off + |chunks[i]| <= |BytesToAudio(chunks)|
      && BytesToAudio(chunks)[off..off + |chunks[i]|] == chunks[i]
  {
    assert chunks == chunks[..i] + chunks[i..];
    FlattenAppend(chunks[..i], chunks[i..]);
    FlattenLength(chunks[..i]);
    FlattenLength(chunks[i..]);
    assert Flatten(chunks[i..]) == chunks[i] + Flatten(chunks[i + 1..]);
  }

  /** `queue.put(x, block=False)` on a queue of capacity 100: the item is
      appended when there is room; otherwise `queue.Full` is raised, which
      the callers catch, and the queue is unchanged. */
  function TryPut(q: seq<Chunk>, x: Chunk): (r: (seq<Chunk>, bool))
    ensures r.1 <==> |q| < QueueCapacity
    ensures r.0 == if r.1 then q + [x] else q
  {
    if |q| < QueueCapacity then (q + [x], true) else (q, false)
  }

  lemma TryPutBounded(q: seq<Chunk>, x: Chunk)
    requires |q| <= QueueCapacity
    ensures |TryPut(q, x).0| <= QueueCapacity
    ensures TryPut(q, x).0[..|q|] == q
  {
  }

  /** Mean of one frame's channel values. */
  function FrameMean(frame: seq<real>): real
    requires |frame| > 0
  {
    SumOf(frame) / (|frame| as real)
  }

  function SumOf(xs: seq<real>): real {
    if xs == [] then 0.0 else xs[0] + SumOf(xs[1..])
  }

  /** `audio_chunk.mean(axis=1)` on a frames-by-channels block. */
  function Downmix(frames: seq<seq<real>>): (r: Chunk)
    requires forall i :: 0 <= i < |frames| ==> |frames[i]| > 0
    ensures |r| == |frames|
    ensures forall i :: 0 <= i < |frames| && |frames[i]| == 1 ==> r[i] == frames[i][0]
    ensures forall i :: 0 <= i < |frames| && |frames[i]| == 2 ==> r[i] == (frames[i][0] + frames[i][1]) / 2.0
  {
    forall i | 0 <= i < |frames| && |frames[i]| <= 2 ensures FrameMean(frames[i]) == MonoOrStereo(frames[i]) {
      FrameMeanSmall(frames[i]);
    }
    seq(|frames|, i requires 0 <= i < |frames| => FrameMean(frames[i]))
  }

  lemma FrameMeanSmall(f: seq<real>)
    requires 0 < |f| <= 2
    ensures FrameMean(f) == MonoOrStereo(f)
  {
    assert SumOf(f) == f[0] + SumOf(f[1..]);
    if |f| == 2 {
      assert SumOf(f[1..]) == f[1] + SumOf(f[1..][1..]);
      assert f[1..][1..] == [];
    } else {
      assert f[1..] == [];
    }
  }

  function MonoOrStereo(frame: seq<real>): real
    requires 0 < |frame| <= 2
  {
    if |frame| == 1 then frame[0] else (frame[0] + frame[1]) / 2.0
  }

  // ---------------------------------------------------------------------------
  // The per-chunk segmentation step

  datatype SegmentState = SegmentState(buffer: seq<Chunk>, active: bool, silence: nat)

  function Idle(): SegmentState {
    SegmentState([], false, 0)
  }

  /** `int(1.0 * sr / 512)`. */
  function MaxBufferChunks(sr: nat): nat {
    sr / ChunkSize
  }

  /** `silence_duration >= SILENCE_THRESHOLD` with a threshold of 1.5 s. */
  predicate LongSilence(sr: nat, silence: nat) {
    2 * silence >= 3 * sr
  }

  /** `if len(buf) > k: buf = buf[-k:]`. With k == 0 Python's `buf[-0:]` is
      the whole list, so nothing is trimmed. */
  function Trim(buffer: seq<Chunk>, k: nat): (r: seq<Chunk>)
    ensures |r| <= |buffer| && r == buffer[|buffer| - |r|..]
    ensures k > 0 ==> |r| == Min(|buffer|, k)
    ensures k == 0 ==> r == buffer
  {
    if |buffer| > k && k > 0 then buffer[|buffer| - k..] else buffer
  }

  /** The state after a chunk, and the segment audio handed to the queue if
      the chunk ended a segment. */
  datatype StepResult = StepResult(next: SegmentState, emitted: Option<seq<real>>)

  /** One chunk of the recording loop. `speech` is the chunk's VAD verdict. */
  function Step(sr: nat, s: SegmentState, chunk: Chunk, speech: bool): StepResult {
    var buf := s.buffer + [chunk];
    if speech then
      StepResult(SegmentState(buf, true, 0), None)
    else if s.active then
      var silence := s.silence + |chunk|;
      if LongSilence(sr, silence) then StepResult(Idle(), Some(BytesToAudio(buf)))
      else StepResult(SegmentState(buf, true, silence), None)
    else
      StepResult(SegmentState(Trim(buf, MaxBufferChunks(sr)), false, s.silence), None)
  }

  /** The step as the three loops write it, statement by statement. */
  method SegmentChunk(sr: nat, s: SegmentState, chunk: Chunk, speech: bool) returns (next: SegmentState, emitted: Option<seq<real>>)
    ensures StepResult(next, emitted) == Step(sr, s, chunk, speech)
  {
    var buffer, active, silence := s.buffer, s.active, s.silence;
    emitted := None;
    buffer := buffer + [chunk];
    if speech {
      active := true;
      silence := 0;
    } else if active {
      silence := silence + |chunk|;
      if LongSilence(sr, silence) && |buffer| > 0 {
        emitted := Some(BytesToAudio(buffer));
        buffer := [];
        active := false;
        silence := 0;
      }
    } else {
      var maxChunks := MaxBufferChunks(sr);
      if |buffer| > maxChunks {
        buffer := if maxChunks == 0 then buffer else buffer[|buffer| - maxChunks..];
      }
    }
    next := SegmentState(buffer, active, silence);
  }

  /** What the step does, case by case. */
  lemma StepCases(sr: nat, s: SegmentState, chunk: Chunk, speech: bool)
    ensures var r := Step(sr, s, chunk, speech);
      // every chunk joins the segment buffer; a speech chunk resets the silence
      && (speech ==> r.next == SegmentState(s.buffer + [chunk], true, 0) && r.emitted == None)
      // a segment is emitted exactly when an active segment reaches 1.5 s of silence
      && (r.emitted != None <==> !speech && s.active && LongSilence(sr, s.silence + |chunk|))
      // the emitted audio is the whole segment buffer with this chunk, and the state is idle again
      && (r.emitted != None ==>
            r.emitted.value == BytesToAudio(s.buffer + [chunk])
            && |r.emitted.value| == TotalLength(s.buffer) + |chunk|
            && r.next == Idle())
      // silence while idle keeps only the newest int(sr/512) chunks
      && (!speech && !s.active ==>
            r.next == SegmentState(Trim(s.buffer + [chunk], MaxBufferChunks(sr)), false, s.silence))
  {
    var r := Step(sr, s, chunk, speech);
    if r.emitted != None {
      FlattenAppend(s.buffer, [chunk]);
      FlattenLength(s.buffer);
      assert Flatten([chunk]) == chunk + Flatten([]);
    }
  }

  /** What holds between chunks: an idle state has no accumulated silence and
      a bounded buffer; an active one has a non-empty buffer and has not yet
      reached the threshold. */
  predicate Inv(sr: nat, s: SegmentState) {
    && (!s.active ==> s.silence == 0 && (MaxBufferChunks(sr) > 0 ==> |s.buffer| <= MaxBufferChunks(sr)))
    && (s.active ==> s.buffer != [] && !LongSilence(sr, s.silence))
  }

  lemma IdleInv(sr: nat)
    ensures Inv(sr, Idle())
  {
  }

  lemma StepInv(sr: nat, s: SegmentState, chunk: Chunk, speech: bool)
    requires sr > 0 && Inv(sr, s)
    ensures Inv(sr, Step(sr, s, chunk, speech).next)
  {
  }

  /** Several chunks in a row: the final state and the emitted segments, in
      order. */
  function Run(sr: nat, s: SegmentState, chunks: seq<Chunk>, speech: seq<bool>): (SegmentState, seq<seq<real>>)
    requires |speech| == |chunks|
    decreases |chunks|
  {
    if chunks == [] then (s, [])
    else
      var r := Step(sr, s, chunks[0], speech[0]);
      var (t, more) := Run(sr, r.next, chunks[1..], speech[1..]);
      (t, (if r.emitted.Some? then [r.emitted.value] else []) + more)
  }

  /** Over any run the invariant holds, and no segment is emitted unless some
      chunk of the run was speech or a segment was already open. */
  lemma {:induction false} RunInv(sr: nat, s: SegmentState, chunks: seq<Chunk>, speech: seq<bool>)
    requires sr > 0 && Inv(sr, s) && |speech| == |chunks|
    ensures Inv(sr, Run(sr, s, chunks, speech).0)
    ensures Run(sr, s, chunks, speech).1 != [] ==> s.active || true in speech
    decreases |chunks|
  {
    if chunks != [] {
      var r := Step(sr, s, chunks[0], speech[0]);
      StepInv(sr, s, chunks[0], speech[0]);
      RunInv(sr, r.next, chunks[1..], speech[1..]);
      if Run(sr, r.next, chunks[1..], speech[1..]).1 != [] && r.next.active && !s.active {
        assert speech[0];
      }
      if true in speech[1..] {
        var j :| 0 <= j < |speech[1..]| && speech[1..][j];
        assert speech[j + 1];
      }
    }
  }
}
