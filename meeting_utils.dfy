/** `core/meeting_utils.py`: `MeetingRecorder`, the switch between normal
    dictation and meeting mode. Its collaborators (audio processor,
    transcription processor, exporter, keyboard and Fn listeners) are
    abstract here: each call the recorder makes on one of them is appended to
    `calls`, so the contracts state which calls happen, in which order and
    with which flag values. The tray and thread joins are not modelled. */
module MeetingUtils {
  import opened Common

  /** A call made on a collaborator. */
  datatype Call =
    | ClearTranscripts
    | DisableKeyboardListeners
    | DisableFnListeners
    | StartAudioRecording
    | StartTranscriptionProcessing
    /** `stop_audio_recording`, with the value `meeting_stopping` has then. */
    | StopAudioRecording(meetingStopping: bool)
    | WaitForTranscriptionCompletion
    /** `save_meeting_results` with the meeting's start time. */
    | SaveMeetingResults(startTime: Option<int>)
    | CleanupAudio
    | EnableKeyboardListeners
    | EnableFnListeners
    | CleanupTranscription

  /** The calls `start_meeting_recording` makes, in order. */
  function StartCalls(hasFnListener: bool): seq<Call> {
    [ClearTranscripts, DisableKeyboardListeners]
      + (if hasFnListener then [DisableFnListeners] else [])
      + [StartAudioRecording, StartTranscriptionProcessing]
  }

  /** The calls `stop_meeting_recording` makes, in order: the re-enabling
      comes after the save whether or not saving raised. */
  function StopCalls(hasFnListener: bool, startTime: Option<int>): seq<Call> {
    [StopAudioRecording(true), WaitForTranscriptionCompletion, SaveMeetingResults(startTime),
     CleanupAudio, EnableKeyboardListeners]
      + (if hasFnListener then [EnableFnListeners] else [])
  }

  /** Whether the keyboard listeners are disabled after `calls`: the last
      enable/disable call decides. */
  function KeyboardDisabled(calls: seq<Call>): bool
    decreases |calls|
  {
    if calls == [] then false
    else
      var c := calls[|calls| - 1];
      if c == DisableKeyboardListeners then true
      else if c == EnableKeyboardListeners then false
      else KeyboardDisabled(calls[..|calls| - 1])
  }

  predicate TouchesKeyboard(c: Call) {
    c == DisableKeyboardListeners || c == EnableKeyboardListeners
  }

  lemma {:induction false} KeyboardDisabledAppend(calls: seq<Call>, more: seq<Call>)
    requires forall k :: 0 <= k < |more| ==> !TouchesKeyboard(more[k])
    ensures KeyboardDisabled(calls + more) == KeyboardDisabled(calls)
    decreases |more|
  {
    if more != [] {
      var init := more[..|more| - 1];
      assert (calls + more)[..|calls + more| - 1] == calls + init;
      KeyboardDisabledAppend(calls, init);
    } else {
      assert calls + more == calls;
    }
  }

  /** Starting leaves the listeners disabled, stopping leaves them enabled. */
  lemma KeyboardAfterStartStop(calls: seq<Call>, hasFnListener: bool, startTime: Option<int>)
    ensures KeyboardDisabled(calls + StartCalls(hasFnListener))
    ensures !KeyboardDisabled(calls + StopCalls(hasFnListener, startTime))
  {
    var tail := (if hasFnListener then [DisableFnListeners] else []) + [StartAudioRecording, StartTranscriptionProcessing];
    assert calls + StartCalls(hasFnListener) == (calls + [ClearTranscripts, DisableKeyboardListeners]) + tail;
    KeyboardDisabledAppend(calls + [ClearTranscripts, DisableKeyboardListeners], tail);
    var head := calls + [StopAudioRecording(true), WaitForTranscriptionCompletion, SaveMeetingResults(startTime),
                         CleanupAudio, EnableKeyboardListeners];
    var fn := if hasFnListener then [EnableFnListeners] else [];
    assert calls + StopCalls(hasFnListener, startTime) == head + fn;
    KeyboardDisabledAppend(head, fn);
  }

  class MeetingRecorder {
    var meetingMode: bool
    var meetingStopping: bool
    var meetingStartTime: Option<int>
    /** Whether the transcriber has an Fn-key listener. */
    const hasFnListener: bool
    /** The calls made on collaborators so far. */
    var calls: seq<Call>

    /** Between calls: not stopping, and the keyboard listeners are disabled
        exactly while in meeting mode. */
    ghost predicate Valid()
      reads this
    {
      !meetingStopping && (meetingMode <==> KeyboardDisabled(calls))
    }

    constructor (hasFnListener: bool)
      ensures Valid()
      ensures !meetingMode && meetingStartTime.None? && calls == [] && this.hasFnListener == hasFnListener
    {
      meetingMode, meetingStopping := false, false;
      meetingStartTime := None;
      this.hasFnListener := hasFnListener;
      calls := [];
    }

    /** `start_meeting_recording`: a no-op in meeting mode; otherwise it
        enters meeting mode, records the start time, clears the transcripts,
        disables the listeners and starts recording and transcription. */
    method StartMeetingRecording(now: int)
      requires Valid()
      modifies this
      ensures Valid()
      ensures old(meetingMode) ==> unchanged(this)
      ensures !old(meetingMode) ==>
        meetingMode && meetingStartTime == Some(now) && calls == old(calls) + StartCalls(hasFnListener)
    {
      if meetingMode {
        return;
      }
      meetingMode := true;
      meetingStartTime := Some(now);
      var made := [ClearTranscripts, DisableKeyboardListeners];
      if hasFnListener {
        made := made + [DisableFnListeners];
      }
      made := made + [StartAudioRecording, StartTranscriptionProcessing];
      assert made == StartCalls(hasFnListener);
      calls := calls + made;
      KeyboardAfterStartStop(old(calls), hasFnListener, None);
    }

    /** `stop_meeting_recording`: a no-op outside meeting mode; otherwise
        `meeting_stopping` is raised before the audio stops, meeting mode
        ends, the results are saved (an exception there is caught), then the
        flag is lowered and the listeners are re-enabled. `saved` is false
        when saving raised. */
    method StopMeetingRecording(saveRaises: bool) returns (saved: bool)
      requires Valid()
      modifies this
      ensures Valid()
      ensures !old(meetingMode) ==> unchanged(this) && !saved
      ensures old(meetingMode) ==>
        && !meetingMode && meetingStartTime == old(meetingStartTime)
        && calls == old(calls) + StopCalls(hasFnListener, old(meetingStartTime))
        && saved == !saveRaises
    {
      saved := false;
      if !meetingMode {
        return;
      }
      meetingStopping := true;
      var made := [StopAudioRecording(meetingStopping)];
      meetingMode := false;
      made := made + [WaitForTranscriptionCompletion, SaveMeetingResults(meetingStartTime)];
      saved := !saveRaises;
      meetingStopping := false;
      made := made + [CleanupAudio, EnableKeyboardListeners];
      if hasFnListener {
        made := made + [EnableFnListeners];
      }
      assert made == StopCalls(hasFnListener, old(meetingStartTime));
      calls := calls + made;
      KeyboardAfterStartStop(old(calls), hasFnListener, old(meetingStartTime));
    }

    /** `toggle_meeting_recording`: start outside meeting mode, stop inside. */
    method ToggleMeetingRecording(now: int, saveRaises: bool)
      requires Valid()
      modifies this
      ensures Valid()
      ensures meetingMode == !old(meetingMode)
      ensures !old(meetingMode) ==> calls == old(calls) + StartCalls(hasFnListener) && meetingStartTime == Some(now)
      ensures old(meetingMode) ==> calls == old(calls) + StopCalls(hasFnListener, old(meetingStartTime))
    {
      if !meetingMode {
        StartMeetingRecording(now);
      } else {
        var _ := StopMeetingRecording(saveRaises);
      }
    }

    /** `cleanup_resources`: an active meeting is stopped first; then the
        audio and transcription processors are cleaned up. */
    method CleanupResources(saveRaises: bool)
      requires Valid()
      modifies this
      ensures Valid() && !meetingMode
      ensures old(meetingMode) ==>
        calls == old(calls) + StopCalls(hasFnListener, old(meetingStartTime)) + [CleanupAudio, CleanupTranscription]
      ensures !old(meetingMode) ==> calls == old(calls) + [CleanupAudio, CleanupTranscription]
    {
      if meetingMode {
        var _ := StopMeetingRecording(saveRaises);
      }
      KeyboardDisabledAppend(calls, [CleanupAudio, CleanupTranscription]);
      calls := calls + [CleanupAudio, CleanupTranscription];
    }
  }
}
