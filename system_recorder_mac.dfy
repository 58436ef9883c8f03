/** `core/meeting/system_recorder_mac.py`: the macOS system-audio recorder.
    It reroutes the system output to the "hey-aura" device, records the
    BlackHole loopback input in a thread, cuts speech segments into a
    100-slot queue, and restores the original output on stop. When the
    current output is the built-in speaker it records nothing and leaves the
    microphone to pick up the speaker.

    The audio-device switcher and sounddevice are inputs: the current output
    name, the lines of the output-device listing and the input-device list are
    passed to `Start`, and the output device the system uses is the field
    `outputDevice`. One pass of `_recording_loop` is one `RecordChunk` call
    with the frames the stream returned and the VAD's verdict on them. */
module SystemRecorderMac {
  import opened Common
  import opened ChunkSegmentation

  /** One entry of `sd.query_devices()`. */
  datatype InputDevice = InputDevice(name: string, maxInputChannels: int)

  /** The word lists `_is_builtin_speaker` checks, kept as a parameter so
      that the proofs about `start` do not unfold the literal lists. */
  datatype SpeakerWords = SpeakerWords(headphone: seq<string>, external: seq<string>, builtin: seq<string>)

  const HeadphoneWords: seq<string> := ["headphone", "airpod", "耳机", "earphone", "headset"]
  const ExternalWords: seq<string> := ["external", "bluetooth", "usb", "wireless", "immersed", "virtual", "hey-aura"]
  const BuiltinWords: seq<string> := ["macbook", "扬声器", "built-in", "内置"]
  const SourceWords := SpeakerWords(HeadphoneWords, ExternalWords, BuiltinWords)

  /** `any(k in s for k in words)`. */
  predicate AnyIn(s: string, words: seq<string>) {
    words != [] && (Contains(s, words[0]) || AnyIn(s, words[1..]))
  }

  /** `_is_builtin_speaker`: headphones and external devices are excluded
      first; a bare "speaker" needs a MacBook/built-in mention; otherwise a
      built-in indicator decides. */
  predicate IsBuiltinSpeaker(deviceName: string, w: SpeakerWords) {
    var lower := Lower(deviceName);
    if AnyIn(lower, w.headphone) then false
    else if AnyIn(lower, w.external) then false
    else
      var isBuiltin := AnyIn(lower, w.builtin);
      if Contains(lower, "speaker") && !AnyIn(lower, ["macbook", "built-in"]) then false
      else isBuiltin
  }

  /** The speaker test as one condition: a built-in indicator, no headphone
      or external word, and "speaker" only with a MacBook/built-in mention. */
  lemma BuiltinSpeakerIff(deviceName: string)
    ensures var lower := Lower(deviceName);
      IsBuiltinSpeaker(deviceName, SourceWords) <==>
        && AnyIn(lower, BuiltinWords)
        && !AnyIn(lower, HeadphoneWords)
        && !AnyIn(lower, ExternalWords)
        && (Contains(lower, "speaker") ==> Contains(lower, "macbook") || Contains(lower, "built-in"))
  {
    var lower := Lower(deviceName);
    var mb: seq<string> := ["macbook", "built-in"];
    assert mb[0] == "macbook" && mb[1..] == ["built-in"];
    assert ["built-in"][0] == "built-in" && ["built-in"][1..] == [];
    assert AnyIn(lower, ["built-in"]) <==> Contains(lower, "built-in");
  }

  /** `next(d for d in devices if "hey-aura" in d.lower())` over the stripped,
      non-empty lines of the listing. */
  function FindHeyAura(lines: seq<string>): Option<string> {
    if lines == [] then None
    else
      var d := Strip(lines[0]);
      if d != [] && Contains(Lower(d), "hey-aura") then Some(d) else FindHeyAura(lines[1..])
  }

  predicate MentionsHeyAura(d: string) {
    d != [] && Contains(Lower(d), "hey-aura")
  }

  /** The result is a qualifying stripped line, and there is none exactly
      when no line qualifies. */
  lemma {:induction false} FindHeyAuraProps(lines: seq<string>)
    ensures FindHeyAura(lines).Some? ==>
      MentionsHeyAura(FindHeyAura(lines).value) && exists i :: 0 <= i < |lines| && FindHeyAura(lines).value == Strip(lines[i])
    ensures FindHeyAura(lines).None? <==> forall i :: 0 <= i < |lines| ==> !MentionsHeyAura(Strip(lines[i]))
  {
    if lines != [] && !MentionsHeyAura(Strip(lines[0])) {
      FindHeyAuraProps(lines[1..]);
      assert forall i :: 1 <= i < |lines| ==> lines[i] == lines[1..][i - 1];
      if FindHeyAura(lines).Some? {
        var i :| 0 <= i < |lines| - 1 && FindHeyAura(lines).value == Strip(lines[1..][i]);
        assert FindHeyAura(lines).value == Strip(lines[i + 1]);
      }
    }
  }

  /** Whether the loop picks this input device. */
  predicate IsBlackHole(d: InputDevice) {
    d.maxInputChannels > 0 && Contains(Lower(d.name), "blackhole")
  }

  predicate HasBlackHole(devices: seq<InputDevice>) {
    exists j :: 0 <= j < |devices| && IsBlackHole(devices[j])
  }

  /** The first BlackHole device at or after index `k`. */
  function FirstBlackHole(devices: seq<InputDevice>, k: nat): Option<nat>
    decreases |devices| - k
  {
    if k >= |devices| then None
    else if IsBlackHole(devices[k]) then Some(k)
    else FirstBlackHole(devices, k + 1)
  }

  /** From index `k`, the search finds the first BlackHole device at or after
      `k`, and finds none exactly when there is none there. */
  lemma {:induction false} FirstBlackHoleProps(devices: seq<InputDevice>, k: nat)
    ensures var r := FirstBlackHole(devices, k);
      && (r.Some? ==> (k <= r.value < |devices| && IsBlackHole(devices[r.value])
                       && forall j :: k <= j < r.value ==> !IsBlackHole(devices[j])))
      && (r.None? <==> forall j :: k <= j < |devices| ==> !IsBlackHole(devices[j]))
    decreases |devices| - k
  {
    if k < |devices| && !IsBlackHole(devices[k]) {
      FirstBlackHoleProps(devices, k + 1);
    }
  }

  /** The input-device loop of `start`. */
  method FindBlackHoleInput(devices: seq<InputDevice>) returns (r: Option<nat>)
    ensures r == FirstBlackHole(devices, 0)
  {
    var idx := 0;
    while idx < |devices|
      invariant 0 <= idx <= |devices|
      invariant FirstBlackHole(devices, idx) == FirstBlackHole(devices, 0)
    {
      var device := devices[idx];
      if device.maxInputChannels > 0 && Contains(Lower(device.name), "blackhole") {
        return Some(idx);
      }
      idx := idx + 1;
    }
    return None;
  }

  /** The search finds the first device with input channels whose name
      mentions BlackHole, and none exactly when no device qualifies. */
  lemma FindBlackHoleFirst(devices: seq<InputDevice>)
    ensures var r := FirstBlackHole(devices, 0);
      && (r.Some? ==> (r.value < |devices| && IsBlackHole(devices[r.value])
                       && forall j :: 0 <= j < r.value ==> !IsBlackHole(devices[j])))
      && (r.None? <==> !HasBlackHole(devices))
  {
    FirstBlackHoleProps(devices, 0);
  }

  /** Which way `start()` goes. */
  datatype StartOutcome = AlreadyRecording | SkipRecording | NoHeyAura | NoBlackHole | Started(output: string)

  function StartPlan(isRecording: bool, current: string, listing: seq<string>, inputs: seq<InputDevice>): StartOutcome {
    if isRecording then AlreadyRecording
    else if IsBuiltinSpeaker(current, SourceWords) then SkipRecording
    else if FindHeyAura(listing).None? then NoHeyAura
    else if FirstBlackHole(inputs, 0).None? then NoBlackHole
    else Started(FindHeyAura(listing).value)
  }

  /** Start reports success exactly in built-in-speaker mode and when both the
      hey-aura output and a BlackHole input exist; only the latter records. */
  lemma StartPlanCases(isRecording: bool, current: string, listing: seq<string>, inputs: seq<InputDevice>)
    ensures var plan := StartPlan(isRecording, current, listing, inputs);
      && (plan.Started? <==> (!isRecording && !IsBuiltinSpeaker(current, SourceWords) && HasBlackHole(inputs)
            && exists i :: 0 <= i < |listing| && MentionsHeyAura(Strip(listing[i]))))
      && (plan.Started? ==> Contains(Lower(plan.output), "hey-aura"))
  {
    FindHeyAuraProps(listing);
    FindBlackHoleFirst(inputs);
  }

  class SystemAudioRecorder {
    const sr: nat
    var isRecording: bool
    var isStopping: bool
    var skipSystemRecording: bool
    /** `queue.Queue(maxsize=100)` of finished segments. */
    var audioQueue: seq<Chunk>
    /** The whole recording, one entry per chunk. */
    var audioBuffer: seq<Chunk>
    var segmentCounter: nat
    /** The output device found at start (`None` before the first start). */
    var originalDevice: Option<string>
    /** The output device the system currently plays to. */
    var outputDevice: string
    /** Whether a recording thread was started, and the locals of its loop. */
    var threadStarted: bool
    var seg: SegmentState

    ghost predicate Valid()
      reads this
    {
      sr > 0 && |audioQueue| <= QueueCapacity && ChunkSegmentation.Inv(sr, seg)
      && (skipSystemRecording ==> isRecording)
    }

    /** `SystemAudioRecorder(sample_rate)` on a machine whose output is
        `output`. */
    constructor (sr: nat, output: string)
      requires sr > 0
      ensures Valid() && this.sr == sr && outputDevice == output
      ensures !isRecording && !isStopping && !skipSystemRecording && !threadStarted
      ensures audioQueue == [] && audioBuffer == [] && segmentCounter == 0 && originalDevice == None
      ensures seg == Idle()
    {
      this.sr := sr;
      isRecording, isStopping, skipSystemRecording := false, false, false;
      audioQueue, audioBuffer, segmentCounter := [], [], 0;
      originalDevice, outputDevice := None, output;
      threadStarted, seg := false, Idle();
    }

    /** `start()`. `rawCurrent` is what the switcher prints for the current
        output, `listing` the lines it prints for all outputs. */
    method Start(rawCurrent: string, listing: seq<string>, inputs: seq<InputDevice>) returns (ok: bool)
      requires Valid()
      modifies this
      ensures Valid()
      ensures ok <==> (StartPlan(old(isRecording), Strip(rawCurrent), listing, inputs) == SkipRecording
                       || StartPlan(old(isRecording), Strip(rawCurrent), listing, inputs).Started?)
      ensures old(isRecording) ==> unchanged(this)
      ensures !old(isRecording) ==> originalDevice == Some(Strip(rawCurrent))
      // built-in speaker: reported as started, but nothing is recorded or rerouted
      ensures StartPlan(old(isRecording), Strip(rawCurrent), listing, inputs) == SkipRecording ==>
        isRecording && skipSystemRecording && outputDevice == old(outputDevice)
        && isStopping == old(isStopping) && audioBuffer == old(audioBuffer) && audioQueue == old(audioQueue)
        && threadStarted == old(threadStarted) && seg == old(seg) && segmentCounter == old(segmentCounter)
      // no hey-aura output: fails without rerouting
      ensures StartPlan(old(isRecording), Strip(rawCurrent), listing, inputs) == NoHeyAura ==>
        !isRecording && outputDevice == old(outputDevice) && threadStarted == old(threadStarted)
      // no BlackHole input: the output is switched back and start fails
      ensures StartPlan(old(isRecording), Strip(rawCurrent), listing, inputs) == NoBlackHole ==>
        !isRecording && outputDevice == Strip(rawCurrent) && threadStarted == old(threadStarted)
      // otherwise the output goes to hey-aura and a fresh recording begins
      ensures StartPlan(old(isRecording), Strip(rawCurrent), listing, inputs).Started? ==>
        isRecording && !isStopping && !skipSystemRecording && threadStarted
        && outputDevice == StartPlan(old(isRecording), Strip(rawCurrent), listing, inputs).output
        && audioBuffer == [] && segmentCounter == 0 && seg == Idle() && audioQueue == old(audioQueue)
    {
      if isRecording {
        return false;
      }
      var current := Strip(rawCurrent);
      originalDevice := Some(current);
      if IsBuiltinSpeaker(current, SourceWords) {
        skipSystemRecording := true;
        isRecording := true;
        return true;
      }
      ok := Reroute(current, listing, inputs);
    }

    /** The rest of `start()` once the output is known not to be the
        built-in speaker: switch the output to hey-aura, look for the
        BlackHole input, and switch back when there is none. */
    method Reroute(current: string, listing: seq<string>, inputs: seq<InputDevice>) returns (ok: bool)
      requires Valid() && !isRecording
      modifies this
      ensures Valid()
      ensures ok <==> FindHeyAura(listing).Some? && FirstBlackHole(inputs, 0).Some?
      ensures originalDevice == old(originalDevice)
      ensures FindHeyAura(listing).None? ==> unchanged(this)
      ensures FindHeyAura(listing).Some? && FirstBlackHole(inputs, 0).None? ==>
        outputDevice == current && !isRecording && threadStarted == old(threadStarted)
      ensures ok ==>
        isRecording && !isStopping && !skipSystemRecording && threadStarted
        && outputDevice == FindHeyAura(listing).value
        && audioBuffer == [] && segmentCounter == 0 && seg == Idle() && audioQueue == old(audioQueue)
    {
      var heyAura := FindHeyAura(listing);
      if heyAura.None? {
        return false;
      }
      outputDevice := heyAura.value;
      var blackholeInput := FindBlackHoleInput(inputs);
      if blackholeInput.None? {
        outputDevice := current;
        return false;
      }
      isRecording := true;
      isStopping := false;
      skipSystemRecording := false;
      audioBuffer := [];
      segmentCounter := 0;
      threadStarted := true;
      seg := Idle();
      ok := true;
    }

    /** One pass of `_recording_loop`: `frames` is what `stream.read(512)`
        returned (one value per channel, one or two channels), `speech` the
        VAD's verdict on the down-mixed chunk. The loop only runs in a
        started thread while recording and not stopping. */
    method RecordChunk(frames: seq<seq<real>>, speech: bool)
      requires Valid()
      requires forall i :: 0 <= i < |frames| ==> |frames[i]| > 0
      modifies this
      ensures Valid()
      ensures isRecording == old(isRecording) && isStopping == old(isStopping)
      ensures skipSystemRecording == old(skipSystemRecording) && threadStarted == old(threadStarted)
      ensures originalDevice == old(originalDevice) && outputDevice == old(outputDevice)
      // the loop is not running, or the read gave nothing: no change
      ensures !(threadStarted && isRecording && !isStopping) || frames == [] ==>
        audioBuffer == old(audioBuffer) && audioQueue == old(audioQueue)
        && seg == old(seg) && segmentCounter == old(segmentCounter)
      ensures threadStarted && isRecording && !isStopping && frames != [] ==>
        var chunk := Downmix(frames);
        var r := Step(sr, old(seg), chunk, speech);
        var put := if r.emitted.Some? then TryPut(old(audioQueue), r.emitted.value) else (old(audioQueue), false);
        && audioBuffer == old(audioBuffer) + [chunk]
        && seg == r.next
        && audioQueue == put.0
        // the counter counts queued segments only; a segment that finds the queue full is dropped
        && segmentCounter == old(segmentCounter) + (if put.1 then 1 else 0)
    {
      if !(threadStarted && isRecording && !isStopping) || |frames| == 0 {
        return;
      }
      var chunk := Downmix(frames);
      audioBuffer := audioBuffer + [chunk];
      var next, emitted := SegmentChunk(sr, seg, chunk, speech);
      StepInv(sr, seg, chunk, speech);
      seg := next;
      if emitted.Some? {
        var (q, put) := TryPut(audioQueue, emitted.value);
        audioQueue := q;
        if put {
          segmentCounter := segmentCounter + 1;
        }
      }
    }

    /** `stop()`. In built-in-speaker mode only the skip flag is cleared (the
        recorder still counts as recording). Otherwise the flags are set, the
        original output is restored when one was recorded, and the whole
        recording is returned, or None when it is empty. */
    method Stop() returns (audio: Option<seq<real>>)
      requires Valid()
      modifies this
      ensures Valid()
      ensures audioBuffer == old(audioBuffer) && audioQueue == old(audioQueue)
      ensures segmentCounter == old(segmentCounter) && seg == old(seg)
      ensures originalDevice == old(originalDevice) && threadStarted == old(threadStarted)
      ensures !old(isRecording) ==> audio == None && unchanged(this)
      ensures old(isRecording) && old(skipSystemRecording) ==>
        audio == None && isRecording && !skipSystemRecording
        && isStopping == old(isStopping) && outputDevice == old(outputDevice)
      ensures old(isRecording) && !old(skipSystemRecording) ==>
        && isStopping && !isRecording && !skipSystemRecording
        && outputDevice == (if old(originalDevice).Some? && old(originalDevice).value != [] then old(originalDevice).value
                            else old(outputDevice))
        && (audio.Some? <==> old(audioBuffer) != [])
        && (audio.Some? ==> audio.value == BytesToAudio(old(audioBuffer)))
    {
      if !isRecording {
        return None;
      }
      if skipSystemRecording {
        skipSystemRecording := false;
        return None;
      }
      isStopping := true;
      isRecording := false;
      if originalDevice.Some? && originalDevice.value != [] {
        outputDevice := originalDevice.value;
      }
      if |audioBuffer| > 0 {
        return Some(BytesToAudio(audioBuffer));
      }
      return None;
    }

    /** `get_speech_segments()`: nothing in built-in-speaker mode; otherwise
        the queue is drained and its segments returned in FIFO order. */
    method GetSpeechSegments() returns (segments: seq<Chunk>)
      requires Valid()
      modifies this
      ensures Valid()
      ensures skipSystemRecording ==> segments == [] && audioQueue == old(audioQueue)
      ensures !skipSystemRecording ==> segments == old(audioQueue) && audioQueue == []
      ensures isRecording == old(isRecording) && isStopping == old(isStopping) && skipSystemRecording == old(skipSystemRecording)
      ensures audioBuffer == old(audioBuffer) && segmentCounter == old(segmentCounter) && seg == old(seg)
      ensures originalDevice == old(originalDevice) && outputDevice == old(outputDevice) && threadStarted == old(threadStarted)
    {
      segments := [];
      if skipSystemRecording {
        return;
      }
      while |audioQueue| > 0
        invariant Valid()
        invariant segments + audioQueue == old(audioQueue)
        invariant isRecording == old(isRecording) && isStopping == old(isStopping) && skipSystemRecording == old(skipSystemRecording)
        invariant audioBuffer == old(audioBuffer) && segmentCounter == old(segmentCounter) && seg == old(seg)
        invariant originalDevice == old(originalDevice) && outputDevice == old(outputDevice) && threadStarted == old(threadStarted)
        decreases |audioQueue|
      {
        segments := segments + [audioQueue[0]];
        audioQueue := audioQueue[1..];
      }
    }
  }
}
