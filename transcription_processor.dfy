/** `core/meeting/transcription_processor.py`: the meeting transcription
    processor. One loop per source takes a finished segment from its queue,
    enhances it, cuts it to its speech, skips it when it is shorter than half
    a second, transcribes it, and appends a timestamped, punctuated entry
    tagged with its source.

    The enhancer, the VAD cut, the transcription service and the clock are
    inputs: each loop pass is one call with the processed audio, the
    transcription outcome (`None` when it raised) and the time. Threads, the
    tray status and the temporary WAV file are not modelled. */
module TranscriptionProcessor {
  import opened Common

  /** A transcript entry: `{'timestamp', 'text', 'source'}`. */
  datatype Entry = Entry(timestamp: int, text: string, source: string)

  const Microphone: string := "microphone"
  const System: string := "system"

  /** The characters after which no full stop is added. */
  const Punctuation: string := ".,!?;:。，！？；："

  lemma PunctuationNotSpace()
    ensures forall k :: 0 <= k < |Punctuation| ==> !IsSpace(Punctuation[k])
  {
  }

  /** Line 121 as written: the stripped text, plus "." unless the last
      character of the text BEFORE stripping is punctuation. */
  function FinaliseAsWritten(text: string): string {
    Strip(text) + (if |text| > 0 && text[|text| - 1] in Punctuation then "" else ".")
  }

  /** The finaliser as intended: the stripped text, plus "." unless it
      already ends with punctuation. Only called on text that is not all
      whitespace. */
  function Finalise(text: string): (r: string)
    requires !AllSpace(text)
  {
    var s := Strip(text);
    s + (if s[|s| - 1] in Punctuation then "" else ".")
  }

  lemma StripNoop(s: string)
    requires s != [] && !IsSpace(s[0]) && !IsSpace(s[|s| - 1])
    ensures Strip(s) == s
  {
  }

  /** The finalised text is the stripped text, ends with punctuation, and
      has no surrounding whitespace; finalising it again changes nothing. */
  lemma FinaliseProps(text: string)
    requires !AllSpace(text)
    ensures var r := Finalise(text);
      && r[..|Strip(text)|] == Strip(text)
      && |r| <= |Strip(text)| + 1
      && r[|r| - 1] in Punctuation
      && Strip(r) == r
      && !AllSpace(r)
      && Finalise(r) == r
  {
    var s := Strip(text);
    var r := Finalise(text);
    PunctuationNotSpace();
    assert r[0] == s[0];
    StripNoop(r);
    assert r != [] && !IsSpace(r[0]);
  }

  /** When the transcription has no trailing whitespace, the code as written
      agrees with the intended finaliser. */
  lemma FinaliseAgrees(text: string)
    requires !AllSpace(text) && !IsSpace(text[|text| - 1])
    ensures FinaliseAsWritten(text) == Finalise(text)
  {
    RStripPrefix(LStrip(text));
    LStripSuffix(text);
    var s := Strip(text);
    assert s[|s| - 1] == text[|text| - 1] by {
      var l := LStrip(text);
      assert RStrip(l) == l;
    }
  }

  /** As written, a transcription with a full stop followed by a space gets
      a second full stop: "Hi. " becomes "Hi..". */
  lemma FinaliseAsWrittenDoubleStop()
    ensures FinaliseAsWritten("Hi. ") == "Hi.."
    ensures Finalise("Hi. ") == "Hi."
  {
    assert LStrip("Hi. ") == "Hi. ";
    assert RStrip("Hi. ") == "Hi.";
    assert Strip("Hi. ") == "Hi.";
  }

  /** What one pass of a transcription loop does with a segment: nothing
      when the processed audio is under half a second (`len / sr < 0.5`,
      that is `2 * len < sr` on sample counts),
      when transcription raised (`text = ""`) or when the text is blank;
      otherwise one entry. */
  function SegmentEntry(processedLen: nat, sr: nat, result: Option<string>, now: int, source: string): (r: Option<Entry>)
    requires sr > 0
    ensures r.Some? <==> 2 * processedLen >= sr && result.Some? && !AllSpace(result.value)
    ensures r.Some? ==> r.value == Entry(now, Finalise(result.value), source)
  {
    if 2 * processedLen < sr then None
    else
      var text := if result.Some? then result.value else "";
      if Strip(text) != [] then Some(Entry(now, Finalise(text), source)) else None
  }

  /** One poll of `wait_for_transcription_completion`: the queue sizes and
      active flags, or an exception while reading them. */
  datatype Poll = Poll(micQueueSize: nat, sysQueueSize: nat, micActive: bool, sysActive: bool) | PollError

  /** The poll on which the wait stops: mic and system both idle (the system
      side counts only when its thread was started), or an error. */
  predicate StopsWaiting(p: Poll, hasSystemThread: bool) {
    p.PollError? ||
    (!(p.micQueueSize > 0 || p.micActive) && !(hasSystemThread && (p.sysQueueSize > 0 || p.sysActive)))
  }

  class MeetingTranscriptionProcessor {
    var meetingTranscripts: seq<Entry>
    var meetingTranscriptionActive: bool
    var systemTranscriptionActive: bool
    var micThreadStarted: bool
    var systemThreadStarted: bool

    constructor ()
      ensures meetingTranscripts == [] && !meetingTranscriptionActive && !systemTranscriptionActive
      ensures !micThreadStarted && !systemThreadStarted
    {
      meetingTranscripts := [];
      meetingTranscriptionActive, systemTranscriptionActive := false, false;
      micThreadStarted, systemThreadStarted := false, false;
    }

    /** `start_transcription_processing`: the microphone thread always
        starts; the system thread only when there is a system recorder that
        is not in built-in-speaker skip mode. */
    method StartTranscriptionProcessing(hasSystemRecorder: bool, skipSystemRecording: bool)
      modifies this
      ensures micThreadStarted
      ensures systemThreadStarted == (old(systemThreadStarted) || (hasSystemRecorder && !skipSystemRecording))
      ensures meetingTranscripts == old(meetingTranscripts)
      ensures meetingTranscriptionActive == old(meetingTranscriptionActive)
      ensures systemTranscriptionActive == old(systemTranscriptionActive)
    {
      micThreadStarted := true;
      if hasSystemRecorder && !skipSystemRecording {
        systemThreadStarted := true;
      }
    }

    /** One segment from the microphone queue. A too-short segment leaves the
        active flag set (the `continue` skips its reset); otherwise the flag
        ends cleared. */
    method ProcessMicrophoneSegment(processedLen: nat, sr: nat, result: Option<string>, now: int)
      requires sr > 0
      modifies this
      ensures var e := SegmentEntry(processedLen, sr, result, now, Microphone);
        meetingTranscripts == old(meetingTranscripts) + (if e.Some? then [e.value] else [])
      ensures meetingTranscriptionActive == (2 * processedLen < sr)
      ensures systemTranscriptionActive == old(systemTranscriptionActive)
      ensures micThreadStarted == old(micThreadStarted) && systemThreadStarted == old(systemThreadStarted)
    {
      meetingTranscriptionActive := true;
      if 2 * processedLen < sr {
        return;
      }
      var text := if result.Some? then result.value else "";
      if Strip(text) != [] {
        var entry := Entry(now, Finalise(text), Microphone);
        meetingTranscripts := meetingTranscripts + [entry];
      }
      meetingTranscriptionActive := false;
    }

    /** One segment from the system queue; the active flag ends cleared on
        every path. */
    method ProcessSystemSegment(processedLen: nat, sr: nat, result: Option<string>, now: int)
      requires sr > 0
      modifies this
      ensures var e := SegmentEntry(processedLen, sr, result, now, System);
        meetingTranscripts == old(meetingTranscripts) + (if e.Some? then [e.value] else [])
      ensures !systemTranscriptionActive
      ensures meetingTranscriptionActive == old(meetingTranscriptionActive)
      ensures micThreadStarted == old(micThreadStarted) && systemThreadStarted == old(systemThreadStarted)
    {
      systemTranscriptionActive := true;
      if 2 * processedLen < sr {
        systemTranscriptionActive := false;
        return;
      }
      var text := if result.Some? then result.value else "";
      if Strip(text) != [] {
        var entry := Entry(now, Finalise(text), System);
        meetingTranscripts := meetingTranscripts + [entry];
      }
      systemTranscriptionActive := false;
    }

    /** A `queue.Empty` timeout in the microphone loop clears its flag. */
    method MicrophoneQueueEmpty()
      modifies this
      ensures !meetingTranscriptionActive
      ensures meetingTranscripts == old(meetingTranscripts) && systemTranscriptionActive == old(systemTranscriptionActive)
      ensures micThreadStarted == old(micThreadStarted) && systemThreadStarted == old(systemThreadStarted)
    {
      meetingTranscriptionActive := false;
    }

    /** The wait loop of `wait_for_transcription_completion` over the polls
        made before `max_wait_time` ran out: the index of the poll that
        ended it, or `None` on time-out. */
    method WaitForTranscriptionCompletion(polls: seq<Poll>) returns (stoppedAt: Option<nat>)
      ensures stoppedAt.Some? ==> stoppedAt.value < |polls| && StopsWaiting(polls[stoppedAt.value], systemThreadStarted)
      ensures stoppedAt.Some? ==> forall j :: 0 <= j < stoppedAt.value ==> !StopsWaiting(polls[j], systemThreadStarted)
      ensures stoppedAt.None? <==> forall j :: 0 <= j < |polls| ==> !StopsWaiting(polls[j], systemThreadStarted)
    {
      var i := 0;
      while i < |polls|
        invariant 0 <= i <= |polls|
        invariant forall j :: 0 <= j < i ==> !StopsWaiting(polls[j], systemThreadStarted)
      {
        match polls[i] {
          case PollError =>
            return Some(i);
          case Poll(micQueueSize, sysQueueSize, micActive, sysActive) =>
            var sysQ := if systemThreadStarted then sysQueueSize else 0;
            var micBusy := micQueueSize > 0 || micActive;
            var sysBusy := if systemThreadStarted then sysQ > 0 || sysActive else false;
            if !micBusy && !sysBusy {
              return Some(i);
            }
        }
        i := i + 1;
      }
      return None;
    }

    /** `get_transcripts`. */
    function GetTranscripts(): seq<Entry>
      reads this
    {
      meetingTranscripts
    }

    /** `clear_transcripts`. */
    method ClearTranscripts()
      modifies this
      ensures meetingTranscripts == []
      ensures meetingTranscriptionActive == old(meetingTranscriptionActive)
      ensures systemTranscriptionActive == old(systemTranscriptionActive)
      ensures micThreadStarted == old(micThreadStarted) && systemThreadStarted == old(systemThreadStarted)
    {
      meetingTranscripts := [];
    }

    /** `cleanup_resources`: the list emptied and both flags cleared (the
        thread joins are not modelled). */
    method CleanupResources()
      modifies this
      ensures meetingTranscripts == [] && !meetingTranscriptionActive && !systemTranscriptionActive
      ensures micThreadStarted == old(micThreadStarted) && systemThreadStarted == old(systemThreadStarted)
    {
      meetingTranscripts := [];
      meetingTranscriptionActive := false;
      systemTranscriptionActive := false;
    }
  }
}
