/** `core/meeting/system_recorder_win.py`: the Windows loopback recorder. It
    records the default speaker's loopback in a thread, cuts speech segments
    into a 100-slot queue with the shared per-chunk step, and returns the
    whole recording on stop.

    The soundcard library is an input: whether the loopback device could be
    opened is a parameter of `Start`, and each pass of `_recording_loop` is
    one `RecordChunk` call with the frames `record(numframes=512)` returned,
    or with `readError` set when it raised. COM initialisation is not
    modelled. */
module SystemRecorderWin {
  import opened Common
  import opened ChunkSegmentation

  class SystemAudioRecorder {
    const sr: nat
    var isRecording: bool
    var isStopping: bool
    /** `queue.Queue(maxsize=100)` of finished segments. */
    var audioQueue: seq<Chunk>
    /** The whole recording, one entry per chunk. */
    var audioBuffer: seq<Chunk>
    var segmentCounter: nat
    /** Whether the recording thread is still in its loop, and the loop's
        locals. */
    var threadRunning: bool
    var seg: SegmentState

    ghost predicate Valid()
      reads this
    {
      sr > 0 && |audioQueue| <= QueueCapacity && ChunkSegmentation.Inv(sr, seg)
    }

    constructor (sr: nat)
      requires sr > 0
      ensures Valid() && this.sr == sr
      ensures !isRecording && !isStopping && !threadRunning
      ensures audioQueue == [] && audioBuffer == [] && segmentCounter == 0 && seg == Idle()
    {
      this.sr := sr;
      isRecording, isStopping, threadRunning := false, false, false;
      audioQueue, audioBuffer, segmentCounter := [], [], 0;
      seg := Idle();
    }

    /** `start()`: refused while recording or when the loopback device cannot
        be opened; otherwise a fresh recording begins in a new thread. The
        queue is not cleared. */
    method Start(loopbackOk: bool) returns (ok: bool)
      requires Valid()
      modifies this
      ensures Valid()
      ensures ok <==> !old(isRecording) && loopbackOk
      ensures !ok ==> unchanged(this)
      ensures ok ==>
        isRecording && !isStopping && threadRunning && audioBuffer == []
        && segmentCounter == 0 && seg == Idle() && audioQueue == old(audioQueue)
    {
      if isRecording {
        return false;
      }
      if !loopbackOk {
        return false;
      }
      isRecording := true;
      isStopping := false;
      audioBuffer := [];
      segmentCounter := 0;
      threadRunning := true;
      seg := Idle();
      ok := true;
    }

    /** One pass of `_recording_loop`. The loop ends when recording stopped
        or when a read raised; an empty read is skipped; otherwise the
        down-mixed chunk joins the recording and goes through the segmentation
        step, and a finished segment is offered to the queue. */
    method RecordChunk(frames: seq<seq<real>>, speech: bool, readError: bool)
      requires Valid()
      requires forall i :: 0 <= i < |frames| ==> |frames[i]| > 0
      modifies this
      ensures Valid()
      ensures isRecording == old(isRecording) && isStopping == old(isStopping)
      ensures var runs := old(threadRunning) && isRecording && !isStopping;
        && threadRunning == (runs && !readError)
        && (!runs || readError || frames == [] ==>
              audioBuffer == old(audioBuffer) && audioQueue == old(audioQueue)
              && seg == old(seg) && segmentCounter == old(segmentCounter))
        && (runs && !readError && frames != [] ==>
              var chunk := Downmix(frames);
              var r := Step(sr, old(seg), chunk, speech);
              var put := if r.emitted.Some? then TryPut(old(audioQueue), r.emitted.value) else (old(audioQueue), false);
              && audioBuffer == old(audioBuffer) + [chunk]
              && seg == r.next
              && audioQueue == put.0
              // only a queued segment is counted
              && segmentCounter == old(segmentCounter) + (if put.1 then 1 else 0))
    {
      if !(threadRunning && isRecording && !isStopping) {
        threadRunning := false;
        return;
      }
      if readError {
        threadRunning := false;
        return;
      }
      if |frames| == 0 {
        return;
      }
      var chunk := Downmix(frames);
      audioBuffer := audioBuffer + [chunk];
      var next, emitted := SegmentChunk(sr, seg, chunk, speech);
      StepInv(sr, seg, chunk, speech);
      seg := next;
      if emitted.Some? {
        var (q, put) := TryPut(audioQueue, emitted.value);
        audioQueue := q;
        if put {
          segmentCounter := segmentCounter + 1;
        }
      }
    }

    /** `stop()`: None when not recording; otherwise the flags are set and the
        whole recording is returned, or None when nothing was recorded. */
    method Stop() returns (audio: Option<seq<real>>)
      requires Valid()
      modifies this
      ensures Valid()
      ensures audioBuffer == old(audioBuffer) && audioQueue == old(audioQueue)
      ensures segmentCounter == old(segmentCounter) && seg == old(seg) && threadRunning == old(threadRunning)
      ensures !old(isRecording) ==> audio == None && unchanged(this)
      ensures old(isRecording) ==>
        && isStopping && !isRecording
        && (audio.Some? <==> old(audioBuffer) != [])
        && (audio.Some? ==> audio.value == BytesToAudio(old(audioBuffer)))
    {
      if !isRecording {
        return None;
      }
      isStopping := true;
      isRecording := false;
      if |audioBuffer| > 0 {
        return Some(BytesToAudio(audioBuffer));
      }
      return None;
    }

    /** `get_speech_segments()`: the queue drained in FIFO order. */
    method GetSpeechSegments() returns (segments: seq<Chunk>)
      requires Valid()
      modifies this
      ensures Valid()
      ensures segments == old(audioQueue) && audioQueue == []
      ensures isRecording == old(isRecording) && isStopping == old(isStopping) && threadRunning == old(threadRunning)
      ensures audioBuffer == old(audioBuffer) && segmentCounter == old(segmentCounter) && seg == old(seg)
    {
      segments := [];
      while |audioQueue| > 0
        invariant Valid()
        invariant segments + audioQueue == old(audioQueue)
        invariant isRecording == old(isRecording) && isStopping == old(isStopping) && threadRunning == old(threadRunning)
        invariant audioBuffer == old(audioBuffer) && segmentCounter == old(segmentCounter) && seg == old(seg)
        decreases |audioQueue|
      {
        segments := segments + [audioQueue[0]];
        audioQueue := audioQueue[1..];
      }
    }
  }
}
