/** `MeetingAudioProcessor`: the session-long microphone and system buffers,
    the two transcription queues, the per-chunk microphone segmentation, and
    the final mix of the two recordings.

    The sounddevice stream, the threads and the locks are not modelled; each
    chunk the stream delivers is one call of `OnMicChunk`, and each batch of
    segments the system recorder hands over is one call of
    `OnSystemSegments`. The VAD's verdict on a chunk is an input: `Some(b)` for
    the value `is_speech_realtime` returned, `None` when it raised. */
module AudioProcessor {
  import opened Common
  import opened ChunkSegmentation

  /** Whether the microphone loop treats a chunk as speech: the VAD runs only
      on chunks with mean absolute amplitude above 0.01 and only if one is
      loaded; an exception counts as no speech. */
  predicate MicSpeech(chunk: Chunk, hasVad: bool, verdict: Option<bool>) {
    EnergyAbove(chunk) && hasVad && verdict == Some(true)
  }

  /** `_loudness_normalize`: an empty array is returned as is; otherwise the
      loudness-normalised signal (an input here) clipped to [-1, 1]. */
  function LoudnessNormalize(a: seq<real>, loud: seq<real> -> seq<real>): (r: seq<real>)
    requires forall x :: |loud(x)| == |x|
    ensures |r| == |a|
    ensures forall i :: 0 <= i < |r| ==> -1.0 <= r[i] <= 1.0
  {
    if a == [] then a else ClipAll(loud(a))
  }

  /** `np.clip((a + b) / 2, -1, 1)` sample by sample. */
  function MixAverage(a: seq<real>, b: seq<real>): (r: seq<real>)
    requires |a| == |b|
    ensures |r| == |a|
    ensures forall i :: 0 <= i < |r| ==> r[i] == Clip((a[i] + b[i]) / 2.0)
  {
    seq(|a|, i requires 0 <= i < |a| => Clip((a[i] + b[i]) / 2.0))
  }

  /** Keeps the non-empty segments, in order. */
  function NonEmpty(segments: seq<Chunk>): (r: seq<Chunk>)
    ensures |r| <= |segments|
    ensures forall i :: 0 <= i < |r| ==> r[i] != []
  {
    if segments == [] then []
    else (if segments[0] != [] then [segments[0]] else []) + NonEmpty(segments[1..])
  }

  /** Non-blocking puts of every segment in turn. */
  function PutAll(q: seq<Chunk>, segments: seq<Chunk>): (r: seq<Chunk>)
    decreases |segments|
  {
    if segments == [] then q else PutAll(TryPut(q, segments[0]).0, segments[1..])
  }

  lemma NonEmptySnoc(segments: seq<Chunk>, x: Chunk)
    ensures NonEmpty(segments + [x]) == NonEmpty(segments) + (if x != [] then [x] else [])
  {
    if segments != [] {
      assert (segments + [x])[1..] == segments[1..] + [x];
      NonEmptySnoc(segments[1..], x);
    } else {
      assert NonEmpty([x]) == (if x != [] then [x] else []) + NonEmpty([]);
    }
  }

  lemma PutAllSnoc(q: seq<Chunk>, segments: seq<Chunk>, x: Chunk)
    ensures PutAll(q, segments + [x]) == TryPut(PutAll(q, segments), x).0
    decreases |segments|
  {
    if segments != [] {
      assert (segments + [x])[1..] == segments[1..] + [x];
      PutAllSnoc(TryPut(q, segments[0]).0, segments[1..], x);
    } else {
      assert PutAll(q, [x]) == PutAll(TryPut(q, x).0, []);
    }
  }

  /** Offering the non-empty segments of `segments + [x]` is offering those
      of `segments`, then `x` when it is non-empty. */
  lemma PutNonEmptySnoc(q: seq<Chunk>, segments: seq<Chunk>, x: Chunk)
    ensures PutAll(q, NonEmpty(segments + [x])) ==
      if x != [] then TryPut(PutAll(q, NonEmpty(segments)), x).0 else PutAll(q, NonEmpty(segments))
  {
    NonEmptySnoc(segments, x);
    if x != [] {
      PutAllSnoc(q, NonEmpty(segments), x);
    } else {
      assert NonEmpty(segments) + [] == NonEmpty(segments);
    }
  }

  /** A queue never grows past its capacity, and what it held stays at its
      front in order. */
  lemma {:induction false} PutAllBounded(q: seq<Chunk>, segments: seq<Chunk>)
    requires |q| <= QueueCapacity
    ensures |PutAll(q, segments)| <= QueueCapacity
    ensures |q| <= |PutAll(q, segments)| && PutAll(q, segments)[..|q|] == q
    decreases |segments|
  {
    if segments != [] {
      var q1 := TryPut(q, segments[0]).0;
      TryPutBounded(q, segments[0]);
      PutAllBounded(q1, segments[1..]);
      var r := PutAll(q1, segments[1..]);
      assert r[..|q|] == r[..|q1|][..|q|];
    }
  }

  class MeetingAudioProcessor {
    const sr: nat
    /** `self.microphone_vad is not None`. */
    const hasMicVad: bool

    /** Full-session recordings, one entry per chunk or segment. */
    var meetingAudioBuffer: seq<Chunk>
    var systemAudioBuffer: seq<Chunk>
    /** Segments waiting for transcription (capacity 100 each). */
    var meetingAudioQueue: seq<Chunk>
    var systemAudioQueue: seq<Chunk>
    /** Locals of `_microphone_recording_loop`. */
    var micSegment: SegmentState
    var segmentCount: nat

    ghost predicate Valid()
      reads this
    {
      sr > 0 && |meetingAudioQueue| <= QueueCapacity && |systemAudioQueue| <= QueueCapacity
      && ChunkSegmentation.Inv(sr, micSegment)
    }

    constructor (sr: nat, hasMicVad: bool)
      requires sr > 0
      ensures this.sr == sr && this.hasMicVad == hasMicVad && Valid()
      ensures meetingAudioBuffer == [] && systemAudioBuffer == []
      ensures meetingAudioQueue == [] && systemAudioQueue == []
      ensures micSegment == Idle() && segmentCount == 0
    {
      this.sr := sr;
      this.hasMicVad := hasMicVad;
      meetingAudioBuffer, systemAudioBuffer := [], [];
      meetingAudioQueue, systemAudioQueue := [], [];
      micSegment, segmentCount := Idle(), 0;
    }

    /** `start_audio_recording`: both full-session buffers are emptied; the
        queues are left as they are. */
    method StartAudioRecording()
      requires Valid()
      modifies this
      ensures Valid()
      ensures meetingAudioBuffer == [] && systemAudioBuffer == []
      ensures meetingAudioQueue == old(meetingAudioQueue) && systemAudioQueue == old(systemAudioQueue)
      ensures micSegment == old(micSegment) && segmentCount == old(segmentCount)
    {
      meetingAudioBuffer := [];
      systemAudioBuffer := [];
    }

    /** The locals the microphone loop starts from. */
    method BeginMicrophoneLoop()
      requires Valid()
      modifies this
      ensures Valid()
      ensures micSegment == Idle() && segmentCount == 0
      ensures meetingAudioBuffer == old(meetingAudioBuffer) && systemAudioBuffer == old(systemAudioBuffer)
      ensures meetingAudioQueue == old(meetingAudioQueue) && systemAudioQueue == old(systemAudioQueue)
    {
      micSegment := Idle();
      segmentCount := 0;
    }

    /** One pass of the microphone loop with a chunk read from the stream. */
    method OnMicChunk(chunk: Chunk, verdict: Option<bool>)
      requires Valid()
      modifies this
      ensures Valid()
      ensures systemAudioBuffer == old(systemAudioBuffer) && systemAudioQueue == old(systemAudioQueue)
      // an empty read is skipped
      ensures chunk == [] ==>
        meetingAudioBuffer == old(meetingAudioBuffer) && micSegment == old(micSegment)
        && meetingAudioQueue == old(meetingAudioQueue) && segmentCount == old(segmentCount)
      ensures chunk != [] ==>
        var r := Step(sr, old(micSegment), chunk, MicSpeech(chunk, hasMicVad, verdict));
        // every chunk joins the full recording before any VAD decision
        && meetingAudioBuffer == old(meetingAudioBuffer) + [chunk]
        && micSegment == r.next
        // the count goes up for every finished segment, queued or dropped
        && segmentCount == old(segmentCount) + (if r.emitted.Some? then 1 else 0)
        && meetingAudioQueue == (if r.emitted.Some? then TryPut(old(meetingAudioQueue), r.emitted.value).0
                                 else old(meetingAudioQueue))
    {
      if |chunk| == 0 {
        return;
      }
      meetingAudioBuffer := meetingAudioBuffer + [chunk];
      var speech := false;
      if EnergyAbove(chunk) && hasMicVad {
        speech := verdict == Some(true);
      }
      var next, emitted := SegmentChunk(sr, micSegment, chunk, speech);
      StepInv(sr, micSegment, chunk, speech);
      micSegment := next;
      if emitted.Some? {
        segmentCount := segmentCount + 1;
        var (q, _) := TryPut(meetingAudioQueue, emitted.value);
        meetingAudioQueue := q;
      }
    }

    /** One pass of `_process_system_audio` over the segments the system
        recorder returned: each non-empty segment joins the system recording
        and is offered to the system queue; an empty one is skipped. In
        built-in-speaker mode the thread returns before doing anything. */
    method OnSystemSegments(segments: seq<Chunk>, builtinSpeakerMode: bool)
      requires Valid()
      modifies this
      ensures Valid()
      ensures meetingAudioBuffer == old(meetingAudioBuffer) && meetingAudioQueue == old(meetingAudioQueue)
      ensures micSegment == old(micSegment) && segmentCount == old(segmentCount)
      ensures builtinSpeakerMode ==>
        systemAudioBuffer == old(systemAudioBuffer) && systemAudioQueue == old(systemAudioQueue)
      ensures !builtinSpeakerMode ==>
        systemAudioBuffer == old(systemAudioBuffer) + NonEmpty(segments)
        && systemAudioQueue == PutAll(old(systemAudioQueue), NonEmpty(segments))
    {
      if builtinSpeakerMode {
        return;
      }
      var i := 0;
      while i < |segments|
        invariant 0 <= i <= |segments|
        invariant Valid()
        invariant meetingAudioBuffer == old(meetingAudioBuffer) && meetingAudioQueue == old(meetingAudioQueue)
        invariant micSegment == old(micSegment) && segmentCount == old(segmentCount)
        invariant systemAudioBuffer == old(systemAudioBuffer) + NonEmpty(segments[..i])
        invariant systemAudioQueue == PutAll(old(systemAudioQueue), NonEmpty(segments[..i]))
      {
        var seg := segments[i];
        if |seg| > 0 {
          systemAudioBuffer := systemAudioBuffer + [seg];
          TryPutBounded(systemAudioQueue, seg);
          var (q, _) := TryPut(systemAudioQueue, seg);
          systemAudioQueue := q;
        }
        assert segments[..i + 1] == segments[..i] + [seg];
        NonEmptySnoc(segments[..i], seg);
        PutNonEmptySnoc(old(systemAudioQueue), segments[..i], seg);
        i := i + 1;
      }
      assert segments[..i] == segments;
    }

    /** `get_recorded_audio`. `builtinSpeakerMode` is the system recorder's
        `skip_system_recording` (false when it has none); `loud` is the
        loudness normalisation to -23 LUFS, which keeps the length. */
    method GetRecordedAudio(builtinSpeakerMode: bool, loud: seq<real> -> seq<real>) returns (audio: seq<real>)
      requires forall x :: |loud(x)| == |x|
      ensures var mic := BytesToAudio(meetingAudioBuffer);
        var sys := BytesToAudio(systemAudioBuffer);
        && (builtinSpeakerMode || sys == [] ==> audio == mic)
        && (!builtinSpeakerMode && sys != [] ==>
              && |audio| == Max(|mic|, |sys|)
              && (forall i :: 0 <= i < |audio| ==> -1.0 <= audio[i] <= 1.0)
              && var n := Max(|mic|, |sys|);
                 audio == MixAverage(LoudnessNormalize(PadTo(mic, n), loud), LoudnessNormalize(PadTo(sys, n), loud)))
    {
      var mic := BytesToAudio(meetingAudioBuffer);
      var sys := BytesToAudio(systemAudioBuffer);
      if builtinSpeakerMode {
        return mic;
      }
      if |sys| > 0 {
        var maxLen := Max(|mic|, |sys|);
        var micPadded := PadTo(mic, maxLen);
        var sysPadded := PadTo(sys, maxLen);
        var micNorm := LoudnessNormalize(micPadded, loud);
        var sysNorm := LoudnessNormalize(sysPadded, loud);
        audio := MixAverage(micNorm, sysNorm);
      } else {
        audio := mic;
      }
    }

    /** `cleanup_resources`: both queues are drained and both buffers
        emptied. */
    method CleanupResources()
      requires Valid()
      modifies this
      ensures Valid()
      ensures meetingAudioQueue == [] && systemAudioQueue == []
      ensures meetingAudioBuffer == [] && systemAudioBuffer == []
      ensures micSegment == old(micSegment) && segmentCount == old(segmentCount)
    {
      while |meetingAudioQueue| > 0
        invariant Valid() && micSegment == old(micSegment) && segmentCount == old(segmentCount)
        decreases |meetingAudioQueue|
      {
        meetingAudioQueue := meetingAudioQueue[1..];
      }
      while |systemAudioQueue| > 0
        invariant Valid() && meetingAudioQueue == [] && micSegment == old(micSegment) && segmentCount == old(segmentCount)
        decreases |systemAudioQueue|
      {
        systemAudioQueue := systemAudioQueue[1..];
      }
      systemAudioBuffer := [];
      meetingAudioBuffer := [];
    }
  }
}
