/** `archive/demo_buffered_mixed_recording.py`: the buffered mixer demo. The
    microphone thread cuts its stream into quarter-second chunks, the system
    recording is cut into chunks of the same size once it is read back from
    its file, and the mixing thread takes one chunk from the front of each
    deque per step, mixes the common length and pushes any remainder back to
    the front of its own deque.

    Threads, the lock, the sound device and the file are not modelled: each
    thread body is a method of `BufferedMixedRecorder` and the samples they
    read are parameters. */
module DemoMixer {
  import opened Common
  import opened ChunkSegmentation

  // ---------------------------------------------------------------------------
  // Chunking

  /** The microphone's `while len(chunk_buffer) >= chunk_size` loop as a
      value: the full chunks cut from the front, and the leftover. */
  function FullChunks(xs: seq<real>, size: nat): (seq<seq<real>>, seq<real>)
    requires size > 0
    decreases |xs|
  {
    if |xs| < size then ([], xs)
    else
      var t := FullChunks(xs[size..], size);
      ([xs[..size]] + t.0, t.1)
  }

  predicate AllOfSize(cs: seq<seq<real>>, size: nat) {
    forall k :: 0 <= k < |cs| ==> |cs[k]| == size
  }

  /** Every emitted chunk has exactly `chunk_size` samples, the leftover is
      shorter, and chunks plus leftover are the input in order. */
  lemma {:induction false} FullChunksProps(xs: seq<real>, size: nat)
    requires size > 0
    ensures var t := FullChunks(xs, size);
      && Flatten(t.0) + t.1 == xs
      && AllOfSize(t.0, size)
      && |t.1| < size
    decreases |xs|
  {
    if |xs| >= size {
      var t := FullChunks(xs[size..], size);
      FullChunksProps(xs[size..], size);
      var cs := [xs[..size]] + t.0;
      assert FullChunks(xs, size) == (cs, t.1);
      assert cs[1..] == t.0;
      assert Flatten(cs) == xs[..size] + Flatten(t.0);
      assert xs[..size] + (Flatten(t.0) + t.1) == xs;
      forall k | 0 <= k < |cs| ensures |cs[k]| == size {
        if k > 0 {
          assert cs[k] == t.0[k - 1];
        }
      }
    }
  }

  /** Reading in pieces emits the same chunks as reading everything at once:
      the leftover of the first piece is carried into the second. */
  lemma {:induction false} FullChunksIncremental(a: seq<real>, b: seq<real>, size: nat)
    requires size > 0
    ensures var ta := FullChunks(a, size);
      var tb := FullChunks(ta.1 + b, size);
      FullChunks(a + b, size) == (ta.0 + tb.0, tb.1)
    decreases |a|
  {
    var ta := FullChunks(a, size);
    var tb := FullChunks(ta.1 + b, size);
    if |a| >= size {
      FullChunksIncremental(a[size..], b, size);
      var rest := FullChunks(a[size..], size);
      assert ta == ([a[..size]] + rest.0, rest.1);
      assert (a + b)[size..] == a[size..] + b;
      assert (a + b)[..size] == a[..size];
      assert FullChunks(a + b, size) == ([a[..size]] + FullChunks(a[size..] + b, size).0, FullChunks(a[size..] + b, size).1);
      assert FullChunks(a[size..] + b, size) == (rest.0 + tb.0, tb.1);
      assert [a[..size]] + (rest.0 + tb.0) == ([a[..size]] + rest.0) + tb.0;
    } else {
      assert ta == ([], a);
      assert [] + tb.0 == tb.0;
    }
  }

  /** `for i in range(0, len(audio), chunk_size)` keeping the non-empty
      slices `audio[i:i+chunk_size]`. */
  function FileChunks(xs: seq<real>, size: nat): seq<seq<real>>
    requires size > 0
    decreases |xs|
  {
    if |xs| == 0 then []
    else if |xs| <= size then [xs]
    else [xs[..size]] + FileChunks(xs[size..], size)
  }

  /** The file's chunks cover the audio in order, none is empty, and only the
      last may be shorter than `chunk_size`. */
  lemma {:induction false} FileChunksProps(xs: seq<real>, size: nat)
    requires size > 0
    ensures var cs := FileChunks(xs, size);
      && Flatten(cs) == xs
      && (forall k :: 0 <= k < |cs| ==> 0 < |cs[k]| <= size)
      && (forall k :: 0 <= k < |cs| - 1 ==> |cs[k]| == size)
    decreases |xs|
  {
    if |xs| > size {
      FileChunksProps(xs[size..], size);
      var cs := FileChunks(xs, size);
      assert cs[1..] == FileChunks(xs[size..], size);
      assert xs[..size] + xs[size..] == xs;
    } else if |xs| > 0 {
      assert Flatten([xs]) == xs + Flatten<real>([]);
    }
  }

  /** The microphone's chunks, with the leftover emitted at stop when it is
      non-empty, are exactly the chunks the file path cuts from the same
      samples. */
  lemma {:induction false} MicChunksMatchFileChunks(xs: seq<real>, size: nat)
    requires size > 0
    ensures var t := FullChunks(xs, size);
      t.0 + (if t.1 == [] then [] else [t.1]) == FileChunks(xs, size)
    decreases |xs|
  {
    if |xs| > size {
      MicChunksMatchFileChunks(xs[size..], size);
    } else if |xs| == size {
      assert xs[size..] == [];
      assert xs[..size] == xs;
    }
  }

  /** The microphone thread's inner loop: full chunks are cut from the front
      of `chunk_buffer` while it holds at least `chunk_size` samples. */
  method CutChunks(buf: seq<real>, size: nat) returns (chunks: seq<seq<real>>, leftover: seq<real>)
    requires size > 0
    ensures (chunks, leftover) == FullChunks(buf, size)
  {
    chunks, leftover := [], buf;
    while |leftover| >= size
      invariant chunks + FullChunks(leftover, size).0 == FullChunks(buf, size).0
      invariant FullChunks(leftover, size).1 == FullChunks(buf, size).1
      decreases |leftover|
    {
      var chunk := leftover[..size];
      assert chunks + ([chunk] + FullChunks(leftover[size..], size).0) == (chunks + [chunk]) + FullChunks(leftover[size..], size).0;
      chunks := chunks + [chunk];
      leftover := leftover[size..];
    }
    assert chunks + [] == chunks;
  }

  /** The file path's `for i in range(0, len(audio), chunk_size)` loop. */
  method SliceFile(audio: seq<real>, size: nat) returns (chunks: seq<seq<real>>)
    requires size > 0
    ensures chunks == FileChunks(audio, size)
  {
    chunks := [];
    var i := 0;
    while i < |audio|
      invariant 0 <= i
      invariant chunks + FileChunks(audio[Min(i, |audio|)..], size) == FileChunks(audio, size)
      decreases |audio| - i
    {
      var chunk := audio[i..Min(i + size, |audio|)];
      var rest := audio[i..];
      var next := audio[Min(i + size, |audio|)..];
      assert FileChunks(rest, size) == [chunk] + FileChunks(next, size) by {
        if |rest| <= size {
          assert chunk == rest && next == [];
        } else {
          assert rest[size..] == next && chunk == rest[..size];
        }
      }
      if |chunk| > 0 {
        assert chunks + ([chunk] + FileChunks(next, size)) == (chunks + [chunk]) + FileChunks(next, size);
        chunks := chunks + [chunk];
      }
      i := i + size;
    }
    assert audio[Min(i, |audio|)..] == [];
    assert chunks + [] == chunks;
  }

  // ---------------------------------------------------------------------------
  // One mixing step

  predicate NonEmptyChunks(cs: seq<seq<real>>) {
    forall k :: 0 <= k < |cs| ==> |cs[k]| > 0
  }

  /** The average of two samples scaled by their volumes. */
  function Blend(a: real, b: real, va: real, vb: real): real {
    (a * va + b * vb) / 2.0
  }

  /** The result of one mixing step: the two deques afterwards and the
      clipped mixed chunk. */
  datatype MixResult = MixResult(mic: seq<seq<real>>, sys: seq<seq<real>>, mixed: seq<real>)

  /** Pops the front of each non-empty deque. With both present the first
      `min_len` samples are averaged after scaling by the volumes and the
      longer chunk's remainder goes back to the front of its deque; with one
      present it is only scaled. Then the chunk is clipped. */
  function MixOnce(mic: seq<seq<real>>, sys: seq<seq<real>>, micVolume: real, systemVolume: real): MixResult
    requires mic != [] || sys != []
  {
    if mic != [] && sys != [] then
      var m, s := mic[0], sys[0];
      var n := Min(|m|, |s|);
      var mixed := seq(n, i requires 0 <= i < n => Blend(m[i], s[i], micVolume, systemVolume));
      MixResult((if |m| > n then [m[n..]] else []) + mic[1..],
                (if |s| > n then [s[n..]] else []) + sys[1..],
                ClipAll(mixed))
    else if mic != [] then
      MixResult(mic[1..], sys, ClipAll(seq(|mic[0]|, i requires 0 <= i < |mic[0]| => mic[0][i] * micVolume)))
    else
      MixResult(mic, sys[1..], ClipAll(seq(|sys[0]|, i requires 0 <= i < |sys[0]| => sys[0][i] * systemVolume)))
  }

  lemma PushBackFlatten(cs: seq<seq<real>>, n: nat)
    requires cs != [] && n <= |cs[0]|
    ensures Flatten((if |cs[0]| > n then [cs[0][n..]] else []) + cs[1..]) == Flatten(cs)[n..]
  {
    if |cs[0]| > n {
      assert ([cs[0][n..]] + cs[1..])[1..] == cs[1..];
    } else {
      assert cs[0][n..] == [];
      assert [] + cs[1..] == cs[1..];
      assert Flatten(cs) == cs[0] + Flatten(cs[1..]);
      assert (cs[0] + Flatten(cs[1..]))[n..] == Flatten(cs[1..]);
    }
  }

  /** With both deques non-empty the step mixes the common length, every
      sample the clipped average of the two scaled samples, and each deque
      loses exactly those samples from its front, in order. */
  lemma MixBothProps(mic: seq<seq<real>>, sys: seq<seq<real>>, micVolume: real, systemVolume: real)
    requires mic != [] && sys != []
    requires NonEmptyChunks(mic) && NonEmptyChunks(sys)
    ensures var r := MixOnce(mic, sys, micVolume, systemVolume);
      && |r.mixed| == Min(|mic[0]|, |sys[0]|) > 0
      && (forall i :: 0 <= i < |r.mixed| ==>
            r.mixed[i] == Clip(Blend(mic[0][i], sys[0][i], micVolume, systemVolume)))
      && Flatten(r.mic) == Flatten(mic)[|r.mixed|..]
      && Flatten(r.sys) == Flatten(sys)[|r.mixed|..]
      && NonEmptyChunks(r.mic) && NonEmptyChunks(r.sys)
  {
    var m, s := mic[0], sys[0];
    var n := Min(|m|, |s|);
    var mixed := seq(n, i requires 0 <= i < n => Blend(m[i], s[i], micVolume, systemVolume));
    var r := MixOnce(mic, sys, micVolume, systemVolume);
    assert r == MixResult((if |m| > n then [m[n..]] else []) + mic[1..],
                          (if |s| > n then [s[n..]] else []) + sys[1..],
                          ClipAll(mixed));
    forall i | 0 <= i < n
      ensures r.mixed[i] == Clip(Blend(m[i], s[i], micVolume, systemVolume))
    {
      assert mixed[i] == Blend(m[i], s[i], micVolume, systemVolume);
    }
    PushBackFlatten(mic, n);
    PushBackFlatten(sys, n);
    PushBackNonEmpty(mic, n);
    PushBackNonEmpty(sys, n);
  }

  lemma PushBackNonEmpty(cs: seq<seq<real>>, n: nat)
    requires cs != [] && n <= |cs[0]| && NonEmptyChunks(cs)
    ensures NonEmptyChunks((if |cs[0]| > n then [cs[0][n..]] else []) + cs[1..])
  {
    var r := (if |cs[0]| > n then [cs[0][n..]] else []) + cs[1..];
    forall k | 0 <= k < |r| ensures |r[k]| > 0 {
      if |cs[0]| > n && k > 0 {
        assert r[k] == cs[k];
      } else if |cs[0]| <= n {
        assert r[k] == cs[k + 1];
      }
    }
  }

  /** With only the microphone deque non-empty the step mixes its front chunk
      scaled and clipped, and the deque loses exactly that chunk. */
  lemma MixMicOnlyProps(mic: seq<seq<real>>, micVolume: real, systemVolume: real)
    requires mic != [] && NonEmptyChunks(mic)
    ensures var r := MixOnce(mic, [], micVolume, systemVolume);
      && |r.mixed| == |mic[0]| > 0
      && (forall i :: 0 <= i < |r.mixed| ==> r.mixed[i] == Clip(mic[0][i] * micVolume))
      && Flatten(r.mic) == Flatten(mic)[|r.mixed|..] && r.sys == []
      && NonEmptyChunks(r.mic)
  {
    PushBackFlatten(mic, |mic[0]|);
    assert [] + mic[1..] == mic[1..];
  }

  /** With only the system deque non-empty, symmetrically. */
  lemma MixSystemOnlyProps(sys: seq<seq<real>>, micVolume: real, systemVolume: real)
    requires sys != [] && NonEmptyChunks(sys)
    ensures var r := MixOnce([], sys, micVolume, systemVolume);
      && |r.mixed| == |sys[0]| > 0
      && (forall i :: 0 <= i < |r.mixed| ==> r.mixed[i] == Clip(sys[0][i] * systemVolume))
      && Flatten(r.sys) == Flatten(sys)[|r.mixed|..] && r.mic == []
      && NonEmptyChunks(r.sys)
  {
    PushBackFlatten(sys, |sys[0]|);
    assert [] + sys[1..] == sys[1..];
  }

  /** Any step keeps the deques free of empty chunks. */
  lemma MixOnceNonEmpty(mic: seq<seq<real>>, sys: seq<seq<real>>, micVolume: real, systemVolume: real)
    requires mic != [] || sys != []
    requires NonEmptyChunks(mic) && NonEmptyChunks(sys)
    ensures var r := MixOnce(mic, sys, micVolume, systemVolume);
      NonEmptyChunks(r.mic) && NonEmptyChunks(r.sys) && |r.mixed| > 0
  {
    if mic != [] && sys != [] {
      MixBothProps(mic, sys, micVolume, systemVolume);
    } else if mic != [] {
      MixMicOnlyProps(mic, micVolume, systemVolume);
    } else {
      MixSystemOnlyProps(sys, micVolume, systemVolume);
    }
  }

  /** The deques' total sample count, which every mixing step lowers. */
  function Pending(mic: seq<seq<real>>, sys: seq<seq<real>>): nat {
    TotalLength(mic) + TotalLength(sys)
  }

  lemma MixOnceProgress(mic: seq<seq<real>>, sys: seq<seq<real>>, micVolume: real, systemVolume: real)
    requires mic != [] || sys != []
    requires NonEmptyChunks(mic) && NonEmptyChunks(sys)
    ensures var r := MixOnce(mic, sys, micVolume, systemVolume);
      Pending(r.mic, r.sys) < Pending(mic, sys)
  {
    var r := MixOnce(mic, sys, micVolume, systemVolume);
    if mic != [] && sys != [] {
      MixBothProps(mic, sys, micVolume, systemVolume);
    } else if mic != [] {
      MixMicOnlyProps(mic, micVolume, systemVolume);
    } else {
      MixSystemOnlyProps(sys, micVolume, systemVolume);
    }
    FlattenLength(mic);
    FlattenLength(sys);
    FlattenLength(r.mic);
    FlattenLength(r.sys);
  }

  // ---------------------------------------------------------------------------
  // The recorder

  class BufferedMixedRecorder {
    const sr: nat
    const chunkSize: nat
    const micVolume: real
    const systemVolume: real
    var micBuffer: seq<seq<real>>
    var systemBuffer: seq<seq<real>>
    var mixedBuffer: seq<seq<real>>
    var recording: bool
    /** `chunk_buffer`, the microphone thread's leftover. */
    var chunkBuffer: seq<real>
    var micChunks: nat
    var systemChunks: nat
    var mixedChunks: nat

    ghost predicate Valid()
      reads this
    {
      chunkSize > 0 && |chunkBuffer| < chunkSize
      && NonEmptyChunks(micBuffer) && NonEmptyChunks(systemBuffer)
    }

    /** `chunk_size = int(sr * 0.25)`, volumes 1.0 and 0.8. A rate under
        4 Hz would make `chunk_size` zero and the chunking loop endless. */
    constructor (sr: nat)
      requires sr >= 4
      ensures Valid() && this.sr == sr
      ensures chunkSize * 4 <= sr < (chunkSize + 1) * 4
      ensures micVolume == 1.0 && systemVolume == 0.8
      ensures micBuffer == [] && systemBuffer == [] && mixedBuffer == [] && chunkBuffer == []
      ensures !recording && micChunks == 0 && systemChunks == 0 && mixedChunks == 0
    {
      this.sr := sr;
      chunkSize := (sr as real * 0.25).Floor;
      micVolume, systemVolume := 1.0, 0.8;
      micBuffer, systemBuffer, mixedBuffer, chunkBuffer := [], [], [], [];
      recording := false;
      micChunks, systemChunks, mixedChunks := 0, 0, 0;
    }

    /** One `stream.read(512)` of the microphone thread: a non-empty block is
        down-mixed and joins `chunk_buffer`; every full chunk is cut from the
        front and queued. */
    method MicRead(audio: seq<seq<real>>)
      requires Valid()
      requires forall i :: 0 <= i < |audio| ==> |audio[i]| > 0
      modifies this
      ensures Valid()
      ensures var t := FullChunks(old(chunkBuffer) + Downmix(audio), chunkSize);
        && micBuffer == old(micBuffer) + t.0 && chunkBuffer == t.1
        && micChunks == old(micChunks) + |t.0|
      ensures systemBuffer == old(systemBuffer) && mixedBuffer == old(mixedBuffer)
      ensures recording == old(recording) && systemChunks == old(systemChunks) && mixedChunks == old(mixedChunks)
    {
      if |audio| > 0 {
        chunkBuffer := chunkBuffer + Downmix(audio);
      } else {
        assert Downmix(audio) == [];
      }
      var chunks, leftover := CutChunks(chunkBuffer, chunkSize);
      FullChunksProps(chunkBuffer, chunkSize);
      micBuffer := micBuffer + chunks;
      micChunks := micChunks + |chunks|;
      chunkBuffer := leftover;
      assert NonEmptyChunks(micBuffer) by {
        forall k | 0 <= k < |micBuffer| ensures |micBuffer[k]| > 0 {
          if k >= |old(micBuffer)| {
            assert micBuffer[k] == chunks[k - |old(micBuffer)|];
          }
        }
      }
    }

    /** "Save remaining audio" when the microphone thread ends: a non-empty
        leftover becomes one final, shorter chunk. */
    method MicFinish()
      requires Valid()
      modifies this
      ensures Valid()
      ensures chunkBuffer == []
      ensures old(chunkBuffer) != [] ==> micBuffer == old(micBuffer) + [old(chunkBuffer)] && micChunks == old(micChunks) + 1
      ensures old(chunkBuffer) == [] ==> micBuffer == old(micBuffer) && micChunks == old(micChunks)
      ensures systemBuffer == old(systemBuffer) && mixedBuffer == old(mixedBuffer)
      ensures recording == old(recording) && systemChunks == old(systemChunks) && mixedChunks == old(mixedChunks)
    {
      if |chunkBuffer| > 0 {
        micBuffer := micBuffer + [chunkBuffer];
        micChunks := micChunks + 1;
      }
      chunkBuffer := [];
    }

    /** `process_system_audio_file`: a missing file queues nothing; otherwise
        the 16-bit samples are scaled by 1/32768 and cut into chunks. */
    method ProcessSystemAudioFile(exists_: bool, samples: seq<int>)
      requires Valid()
      modifies this
      ensures Valid()
      ensures var audio := seq(|samples|, i requires 0 <= i < |samples| => samples[i] as real / 32768.0);
        var added := if exists_ then FileChunks(audio, chunkSize) else [];
        && systemBuffer == old(systemBuffer) + added
        && systemChunks == old(systemChunks) + |added|
      ensures micBuffer == old(micBuffer) && mixedBuffer == old(mixedBuffer) && chunkBuffer == old(chunkBuffer)
      ensures recording == old(recording) && micChunks == old(micChunks) && mixedChunks == old(mixedChunks)
    {
      if !exists_ {
        return;
      }
      var audio := seq(|samples|, i requires 0 <= i < |samples| => samples[i] as real / 32768.0);
      var chunks := SliceFile(audio, chunkSize);
      FileChunksProps(audio, chunkSize);
      systemBuffer := systemBuffer + chunks;
      systemChunks := systemChunks + |chunks|;
      assert NonEmptyChunks(systemBuffer) by {
        forall k | 0 <= k < |systemBuffer| ensures |systemBuffer[k]| > 0 {
          if k >= |old(systemBuffer)| {
            assert systemBuffer[k] == chunks[k - |old(systemBuffer)|];
          }
        }
      }
    }

    /** `has_pending_audio`. */
    predicate HasPendingAudio()
      reads this
    {
      |micBuffer| > 0 || |systemBuffer| > 0
    }

    /** One pass of the mixing thread's loop that finds a chunk: the mixed
        chunk is appended and `mixed_chunks` counts it. */
    method MixStep()
      requires Valid() && HasPendingAudio()
      modifies this
      ensures Valid()
      ensures var r := MixOnce(old(micBuffer), old(systemBuffer), micVolume, systemVolume);
        && micBuffer == r.mic && systemBuffer == r.sys
        && mixedBuffer == old(mixedBuffer) + [r.mixed]
        && mixedChunks == old(mixedChunks) + 1
      ensures chunkBuffer == old(chunkBuffer) && recording == old(recording)
      ensures micChunks == old(micChunks) && systemChunks == old(systemChunks)
    {
      var hasMic, hasSystem := |micBuffer| > 0, |systemBuffer| > 0;
      MixOnceNonEmpty(micBuffer, systemBuffer, micVolume, systemVolume);
      var mixed: seq<real>;
      if hasMic && hasSystem {
        var micChunk, systemChunk := micBuffer[0], systemBuffer[0];
        micBuffer, systemBuffer := micBuffer[1..], systemBuffer[1..];
        var minLen := Min(|micChunk|, |systemChunk|);
        mixed := seq(minLen, i requires 0 <= i < minLen => Blend(micChunk[i], systemChunk[i], micVolume, systemVolume));
        if |micChunk| > minLen {
          micBuffer := [micChunk[minLen..]] + micBuffer;
        }
        if |systemChunk| > minLen {
          systemBuffer := [systemChunk[minLen..]] + systemBuffer;
        }
      } else if hasMic {
        var micChunk := micBuffer[0];
        micBuffer := micBuffer[1..];
        mixed := seq(|micChunk|, i requires 0 <= i < |micChunk| => micChunk[i] * micVolume);
      } else {
        var systemChunk := systemBuffer[0];
        systemBuffer := systemBuffer[1..];
        mixed := seq(|systemChunk|, i requires 0 <= i < |systemChunk| => systemChunk[i] * systemVolume);
      }
      mixed := ClipAll(mixed);
      mixedBuffer := mixedBuffer + [mixed];
      mixedChunks := mixedChunks + 1;
    }

    /** The mixing thread once recording has stopped
        (`while self.recording or self.has_pending_audio()`): it runs until
        both deques are empty, mixing at least one sample per step. */
    method DrainMixing()
      requires Valid() && !recording
      modifies this
      ensures Valid() && !HasPendingAudio()
      ensures mixedChunks >= old(mixedChunks)
      ensures |mixedBuffer| == |old(mixedBuffer)| + (mixedChunks - old(mixedChunks))
      ensures mixedBuffer[..|old(mixedBuffer)|] == old(mixedBuffer)
      ensures mixedChunks <= old(mixedChunks) + Pending(old(micBuffer), old(systemBuffer))
      ensures chunkBuffer == old(chunkBuffer) && !recording
    {
      while HasPendingAudio()
        invariant Valid() && !recording && chunkBuffer == old(chunkBuffer)
        invariant mixedChunks >= old(mixedChunks)
        invariant |mixedBuffer| == |old(mixedBuffer)| + (mixedChunks - old(mixedChunks))
        invariant mixedBuffer[..|old(mixedBuffer)|] == old(mixedBuffer)
        invariant mixedChunks - old(mixedChunks) + Pending(micBuffer, systemBuffer) <= Pending(old(micBuffer), old(systemBuffer))
        decreases Pending(micBuffer, systemBuffer)
      {
        MixOnceProgress(micBuffer, systemBuffer, micVolume, systemVolume);
        MixStep();
      }
    }
  }
}
