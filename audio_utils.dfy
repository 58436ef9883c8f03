/** `core/audio_utils.py`: microphone selection, the probability-to-timestamp
    pass of the Silero VAD with its padding, `extract_speech_segments`, and
    the sizing and decision of `is_speech_realtime`.

    The ONNX model is an input: `predict(i)` is the probability of window `i`,
    and `realtimeProb` gives the probability of a prepared 512-sample chunk or
    `None` when inference raised. `np.interp` resampling is an input as well
    (`resample`); only the lengths it produces matter here. */
module AudioUtils {
  import opened Common

  // ---------------------------------------------------------------------------
  // AudioDeviceSelector.get_best_input_device

  datatype Device = Device(name: string, maxInputChannels: int)

  const ExternalKw: seq<string> := ["USB", "External", "Wireless", "Blue", "Logitech", "Rode",
    "Audio-Technica", "Shure", "Yeti", "Snowball", "Samson", "HyperX"]
  const BuiltinKw: seq<string> := ["MacBook", "Built-in", "Internal", "System", "Default"]
  const HeadphoneKw: seq<string> := ["AirPod", "Headphone", "Headset", "Earphone",
    "Earbud", "Beats", "Sony WH", "Bose", "JBL"]
  const VirtualKw: seq<string> := ["Virtual", "WeMeet", "Zoom", "Teams", "Skype", "Discord",
    "OBS", "Soundflower", "BlackHole", "Loopback", "Aggregate"]

  /** `any(kw.lower() in name for kw in kws)`. */
  predicate AnyKw(name: string, kws: seq<string>) {
    kws != [] && (Contains(name, Lower(kws[0])) || AnyKw(name, kws[1..]))
  }

  /** The four keyword lists; the source's are `SourceKeywords`. */
  datatype Keywords = Keywords(external: seq<string>, builtin: seq<string>, headphone: seq<string>, virtual: seq<string>)

  const SourceKeywords: Keywords := Keywords(ExternalKw, BuiltinKw, HeadphoneKw, VirtualKw)

  /** The bucket the selection loop puts a device in; `Skipped` for devices
      without input channels or with a virtual keyword. */
  datatype MicClass = External | Builtin | Headphone | Other | Skipped

  function ClassOf(d: Device, kw: Keywords): MicClass {
    if d.maxInputChannels <= 0 then Skipped
    else
      var name := Lower(d.name);
      if AnyKw(name, kw.virtual) then Skipped
      else if AnyKw(name, kw.external) then External
      else if AnyKw(name, kw.builtin) then Builtin
      else if AnyKw(name, kw.headphone) then Headphone
      else Other
  }

  /** Preference of a bucket: external over built-in over headphone; the
      other two are never chosen. */
  function Rank(c: MicClass): nat {
    match c
    case External => 3
    case Builtin => 2
    case Headphone => 1
    case _ => 0
  }

  /** `devices[i]` with Python's negative indexing; None for an IndexError. */
  function PyIndex(n: nat, i: int): Option<nat> {
    if 0 <= i < n then Some(i) else if -(n as int) <= i < 0 then Some(i + n) else None
  }

  /** Whether the default input device is kept: it exists and its name has no
      headphone keyword. */
  predicate KeepDefault(devices: seq<Device>, defaultInput: Option<int>, kw: Keywords) {
    defaultInput.Some? && PyIndex(|devices|, defaultInput.value).Some?
    && !AnyKw(Lower(devices[PyIndex(|devices|, defaultInput.value).value].name), kw.headphone)
  }

  /** The bucket of every device, in enumeration order. */
  function Classes(devices: seq<Device>, kw: Keywords): (r: seq<MicClass>)
    ensures |r| == |devices|
  {
    seq(|devices|, j requires 0 <= j < |devices| => ClassOf(devices[j], kw))
  }

  /** Entry `j` is the bucket of device `j`. */
  lemma ClassesAt(devices: seq<Device>, kw: Keywords, j: nat)
    requires j < |devices|
    ensures Classes(devices, kw)[j] == ClassOf(devices[j], kw)
  {
  }

  /** Indices `j < k` of the devices in bucket `c`, in enumeration order. */
  function Bucket(cls: seq<MicClass>, c: MicClass, k: nat): seq<nat>
    requires k <= |cls|
  {
    if k == 0 then []
    else Bucket(cls, c, k - 1) + (if cls[k - 1] == c then [k - 1] else [])
  }

  /** The first device of the best non-empty bucket among external,
      built-in and headphone, by index into `cls`. */
  function Best(cls: seq<MicClass>): Option<nat> {
    var ext := Bucket(cls, External, |cls|);
    var bin := Bucket(cls, Builtin, |cls|);
    var hp := Bucket(cls, Headphone, |cls|);
    if ext != [] then Some(ext[0])
    else if bin != [] then Some(bin[0])
    else if hp != [] then Some(hp[0])
    else None
  }

  /** The selection `get_best_input_device` makes. */
  function BestInputDevice(devices: seq<Device>, defaultInput: Option<int>, kw: Keywords): Option<int> {
    if KeepDefault(devices, defaultInput, kw) then defaultInput
    else
      match Best(Classes(devices, kw)) {
        case Some(i) => Some(i as int)
        case None => None
      }
  }

  /** A bucket holds exactly the indices below `k` of its class, and its
      first element is its least. */
  lemma {:induction false} BucketMembers(cls: seq<MicClass>, c: MicClass, k: nat)
    requires k <= |cls|
    ensures forall x :: x in Bucket(cls, c, k) ==> x < k && cls[x] == c
    ensures forall j :: 0 <= j < k && cls[j] == c ==> j in Bucket(cls, c, k)
    ensures Bucket(cls, c, k) != [] ==> forall x :: x in Bucket(cls, c, k) ==> Bucket(cls, c, k)[0] <= x
  {
    if k > 0 {
      BucketMembers(cls, c, k - 1);
      var prev := Bucket(cls, c, k - 1);
      var b := Bucket(cls, c, k);
      assert b == prev + (if cls[k - 1] == c then [k - 1] else []);
      if prev != [] {
        assert b[0] == prev[0];
        assert prev[0] in prev;
      }
    }
  }

  /** The first member of a bucket is the first index of that class. */
  lemma BucketFirst(cls: seq<MicClass>, c: MicClass)
    ensures var b := Bucket(cls, c, |cls|);
      && (b == [] <==> forall j :: 0 <= j < |cls| ==> cls[j] != c)
      && (b != [] ==> b[0] < |cls| && cls[b[0]] == c && forall j :: 0 <= j < b[0] ==> cls[j] != c)
  {
    var b := Bucket(cls, c, |cls|);
    BucketMembers(cls, c, |cls|);
    if b != [] {
      assert b[0] in b;
    }
  }

  /** The bucket choice: the first index of the best ranked class present,
      and None when no class of positive rank is present. */
  lemma BestChoice(cls: seq<MicClass>)
    ensures var r := Best(cls);
      && (r == None <==> forall j :: 0 <= j < |cls| ==> Rank(cls[j]) == 0)
      && (r.Some? ==>
            && r.value < |cls| && Rank(cls[r.value]) > 0
            && (forall j :: 0 <= j < |cls| ==> Rank(cls[j]) <= Rank(cls[r.value]))
            && (forall j :: 0 <= j < r.value ==> cls[j] != cls[r.value]))
  {
    BucketFirst(cls, External);
    BucketFirst(cls, Builtin);
    BucketFirst(cls, Headphone);
  }

  /** Only a device with input channels and no virtual keyword is ranked. */
  lemma RankedDevice(d: Device, kw: Keywords)
    requires Rank(ClassOf(d, kw)) > 0
    ensures d.maxInputChannels > 0 && !AnyKw(Lower(d.name), kw.virtual)
  {
  }

  /** When the default is not kept, the choice is the first device, in
      enumeration order, of the best non-empty bucket among external,
      built-in and headphone; a device without input channels, with a virtual
      keyword, or in no bucket is never chosen; None when all three are
      empty. */
  lemma BestInputDeviceChoice(devices: seq<Device>, defaultInput: Option<int>, kw: Keywords)
    requires !KeepDefault(devices, defaultInput, kw)
    ensures var r := BestInputDevice(devices, defaultInput, kw);
      && (r == None <==> forall j :: 0 <= j < |devices| ==> Rank(ClassOf(devices[j], kw)) == 0)
      && (r.Some? ==>
            && 0 <= r.value < |devices|
            && Rank(ClassOf(devices[r.value], kw)) > 0
            && devices[r.value].maxInputChannels > 0
            && !AnyKw(Lower(devices[r.value].name), kw.virtual)
            && (forall j :: 0 <= j < |devices| ==> Rank(ClassOf(devices[j], kw)) <= Rank(ClassOf(devices[r.value], kw)))
            && (forall j :: 0 <= j < r.value ==> ClassOf(devices[j], kw) != ClassOf(devices[r.value], kw)))
  {
    var cls := Classes(devices, kw);
    forall j | 0 <= j < |devices|
      ensures cls[j] == ClassOf(devices[j], kw)
    {
      ClassesAt(devices, kw, j);
    }
    BestChoice(cls);
    var b := Best(cls);
    if b.Some? {
      RankedDevice(devices[b.value], kw);
    }
  }

  /** The default input device is returned whenever it exists and its
      lower-cased name has no headphone keyword. */
  lemma BestInputDeviceDefault(devices: seq<Device>, defaultInput: Option<int>, kw: Keywords)
    requires KeepDefault(devices, defaultInput, kw)
    ensures BestInputDevice(devices, defaultInput, kw) == defaultInput
  {
  }

  /** The loop body's tests on one device, in their order. */
  method Classify(dev: Device, kw: Keywords) returns (cls: MicClass)
    ensures cls == ClassOf(dev, kw)
  {
    cls := Skipped;
    if dev.maxInputChannels > 0 {
      var name := Lower(dev.name);
      if !AnyKw(name, kw.virtual) {
        if AnyKw(name, kw.external) {
          cls := External;
        } else if AnyKw(name, kw.builtin) {
          cls := Builtin;
        } else if AnyKw(name, kw.headphone) {
          cls := Headphone;
        } else {
          cls := Other;
        }
      }
    }
  }

  /** The enumeration loop of `get_best_input_device`: the four buckets
      filled in one pass. */
  method FillBuckets(devices: seq<Device>, kw: Keywords) returns (external: seq<nat>, builtin: seq<nat>, headphone: seq<nat>, other: seq<nat>)
    ensures external == Bucket(Classes(devices, kw), External, |devices|)
    ensures builtin == Bucket(Classes(devices, kw), Builtin, |devices|)
    ensures headphone == Bucket(Classes(devices, kw), Headphone, |devices|)
    ensures other == Bucket(Classes(devices, kw), Other, |devices|)
  {
    ghost var cls := Classes(devices, kw);
    external, builtin, headphone, other := [], [], [], [];
    var i := 0;
    while i < |devices|
      invariant 0 <= i <= |devices|
      invariant external == Bucket(cls, External, i)
      invariant builtin == Bucket(cls, Builtin, i)
      invariant headphone == Bucket(cls, Headphone, i)
      invariant other == Bucket(cls, Other, i)
    {
      var c := Classify(devices[i], kw);
      ClassesAt(devices, kw, i);
      match c {
        case External => external := external + [i];
        case Builtin => builtin := builtin + [i];
        case Headphone => headphone := headphone + [i];
        case Other => other := other + [i];
        case Skipped =>
      }
      i := i + 1;
    }
  }

  /** `get_best_input_device`: the default device unless it is missing or a
      headphone, else the first device of the best non-empty bucket. */
  method GetBestInputDevice(devices: seq<Device>, defaultInput: Option<int>) returns (r: Option<int>)
    ensures r == BestInputDevice(devices, defaultInput, SourceKeywords)
  {
    if defaultInput.Some? {
      var idx := PyIndex(|devices|, defaultInput.value);
      if idx.Some? {
        var defaultName := Lower(devices[idx.value].name);
        if !AnyKw(defaultName, HeadphoneKw) {
          return defaultInput;
        }
      }
    }
    var external, builtin, headphone, other := FillBuckets(devices, SourceKeywords);
    if external != [] {
      return Some(external[0]);
    }
    if builtin != [] {
      return Some(builtin[0]);
    }
    if headphone != [] {
      return Some(headphone[0]);
    }
    return None;
  }

  // ---------------------------------------------------------------------------
  // SileroVAD._get_speech_timestamps_onnx: probabilities to timestamps

  /** `window_size_samples = 512`. */
  const Window: nat := 512
  /** `speech_pad_samples = 16000 * 30 / 1000`. */
  const SpeechPad: nat := 480

  /** `{start, end}` in samples. */
  datatype Span = Span(start: int, end: int)

  /** The thresholds of one pass: `min_speech_samples` and
      `min_silence_samples` are `16000 * ms / 1000`. */
  datatype VadParams = VadParams(threshold: real, minSpeechSamples: nat, minSilenceSamples: nat)

  /** `SileroVAD(threshold, min_speech_duration_ms, min_silence_duration_ms)`
      at its fixed 16 kHz rate. */
  function Params(threshold: real, minSpeechMs: nat, minSilenceMs: nat): (c: VadParams)
    ensures c.minSpeechSamples * 1000 == 16000 * minSpeechMs
    ensures c.minSilenceSamples * 1000 == 16000 * minSilenceMs
  {
    VadParams(threshold, 16 * minSpeechMs, 16 * minSilenceMs)
  }

  function NegThreshold(threshold: real): real {
    if threshold - 0.15 >= 0.01 then threshold - 0.15 else 0.01
  }

  /** The loop's variables: `triggered`, `current_speech['start']`, `temp_end`
      (0 meaning unset) and `speeches`. `current_speech` is non-empty exactly
      when `triggered` holds. */
  datatype ScanState = ScanState(triggered: bool, start: int, tempEnd: int, speeches: seq<Span>)

  /** One iteration of the probability loop, for the window starting at
      sample `cur` (`window_size_samples * i`) with probability `p`. */
  function ScanWindow(c: VadParams, st: ScanState, cur: int, p: real): ScanState {
    var tempEnd := if p >= c.threshold && st.tempEnd != 0 then 0 else st.tempEnd;
    if p >= c.threshold && !st.triggered then
      ScanState(true, cur, tempEnd, st.speeches)
    else if p < NegThreshold(c.threshold) && st.triggered then
      var te := if tempEnd == 0 then cur else tempEnd;
      if cur - te < c.minSilenceSamples then st.(tempEnd := te)
      else
        var kept := if te - st.start > c.minSpeechSamples then st.speeches + [Span(st.start, te)] else st.speeches;
        ScanState(false, st.start, 0, kept)
    else st.(tempEnd := tempEnd)
  }

  /** The state after the first `k` windows. */
  function Scan(c: VadParams, probs: seq<real>, k: nat): ScanState
    requires k <= |probs|
  {
    if k == 0 then ScanState(false, 0, 0, [])
    else ScanWindow(c, Scan(c, probs, k - 1), Window * (k - 1), probs[k - 1])
  }

  /** The segment still open at the end closes at the audio length, under the
      same minimum-length rule. */
  function Finish(c: VadParams, st: ScanState, len: nat): seq<Span> {
    if st.triggered && len - st.start > c.minSpeechSamples then st.speeches + [Span(st.start, len)]
    else st.speeches
  }

  /** The number of windows for `len` samples (the last one zero-padded). */
  function WindowCount(len: nat): nat {
    (len + Window - 1) / Window
  }

  /** Well-formed speeches: each within [0, bound], longer than the minimum,
      and strictly after the previous one. */
  ghost predicate Ordered(spans: seq<Span>, minSpeech: nat, bound: int) {
    && (forall j :: 0 <= j < |spans| ==> 0 <= spans[j].start && spans[j].end - spans[j].start > minSpeech && spans[j].end <= bound)
    && (forall j :: 0 <= j < |spans| - 1 ==> spans[j].end < spans[j + 1].start)
  }

  /** After the window starting at sample `last`: the committed speeches end
      at or before `last`; an open segment starts after all of them, and a
      pending end lies after its start. */
  ghost predicate ScanInv(c: VadParams, st: ScanState, last: int) {
    && Ordered(st.speeches, c.minSpeechSamples, last)
    && (st.triggered ==>
          && 0 <= st.start <= last
          && (st.speeches != [] ==> st.speeches[|st.speeches| - 1].end < st.start)
          && (st.tempEnd != 0 ==> st.start < st.tempEnd <= last))
    && (!st.triggered ==> st.tempEnd == 0)
  }

  lemma OrderedGrow(spans: seq<Span>, minSpeech: nat, bound: int, bound2: int)
    requires Ordered(spans, minSpeech, bound) && bound <= bound2
    ensures Ordered(spans, minSpeech, bound2)
  {
  }

  /** Appending a long enough span after the last one keeps the order. */
  lemma OrderedSnoc(spans: seq<Span>, s: Span, minSpeech: nat, bound: int)
    requires Ordered(spans, minSpeech, bound)
    requires 0 <= s.start && s.end - s.start > minSpeech && s.end <= bound
    requires spans != [] ==> spans[|spans| - 1].end < s.start
    ensures Ordered(spans + [s], minSpeech, bound)
  {
    var t := spans + [s];
    assert forall j :: 0 <= j < |spans| ==> t[j] == spans[j];
  }

  /** Closing the open segment at `te` keeps the invariant. */
  lemma ScanCloseInv(c: VadParams, st: ScanState, last: int, cur: int, te: int)
    requires ScanInv(c, st, last) && last < cur && st.triggered && st.start < te <= cur
    ensures var kept := if te - st.start > c.minSpeechSamples then st.speeches + [Span(st.start, te)] else st.speeches;
      ScanInv(c, ScanState(false, st.start, 0, kept), cur)
  {
    OrderedGrow(st.speeches, c.minSpeechSamples, last, cur);
    if te - st.start > c.minSpeechSamples {
      OrderedSnoc(st.speeches, Span(st.start, te), c.minSpeechSamples, cur);
    }
  }

  /** One window keeps the invariant. */
  lemma ScanWindowInv(c: VadParams, st: ScanState, last: int, cur: int, p: real)
    requires ScanInv(c, st, last) && last < cur && 0 <= cur
    ensures ScanInv(c, ScanWindow(c, st, cur, p), cur)
  {
    var tempEnd := if p >= c.threshold && st.tempEnd != 0 then 0 else st.tempEnd;
    if p >= c.threshold && !st.triggered {
      OrderedGrow(st.speeches, c.minSpeechSamples, last, cur);
    } else if p < NegThreshold(c.threshold) && st.triggered {
      var te := if tempEnd == 0 then cur else tempEnd;
      if cur - te >= c.minSilenceSamples {
        ScanCloseInv(c, st, last, cur, te);
      } else {
        OrderedGrow(st.speeches, c.minSpeechSamples, last, cur);
      }
    } else {
      OrderedGrow(st.speeches, c.minSpeechSamples, last, cur);
    }
  }

  lemma {:induction false} ScanKeepsInv(c: VadParams, probs: seq<real>, k: nat)
    requires k <= |probs|
    ensures ScanInv(c, Scan(c, probs, k), Window * k - Window)
  {
    if k > 0 {
      ScanKeepsInv(c, probs, k - 1);
      var cur := Window * (k - 1);
      var prev := Scan(c, probs, k - 1);
      ScanWindowInv(c, prev, cur - Window, cur, probs[k - 1]);
      assert Scan(c, probs, k) == ScanWindow(c, prev, cur, probs[k - 1]);
    }
  }

  /** The timestamps before padding: ordered, each longer than
      `min_speech_samples`, inside [0, len]. */
  lemma FinishOrdered(c: VadParams, probs: seq<real>, len: nat)
    requires |probs| == WindowCount(len)
    ensures Ordered(Finish(c, Scan(c, probs, |probs|), len), c.minSpeechSamples, len)
  {
    var k := |probs|;
    ScanKeepsInv(c, probs, k);
    var st := Scan(c, probs, k);
    if k > 0 {
      assert Window * k - Window < len;
    }
  }

  /** The start of speech `i` after the padding loop. */
  function PaddedStart(sp: seq<Span>, i: nat): int
    requires i < |sp|
  {
    if i == 0 then Max(0, sp[0].start - SpeechPad)
    else
      var gap := sp[i].start - sp[i - 1].end;
      if gap < 2 * SpeechPad then Max(0, sp[i].start - gap / 2) else Max(0, sp[i].start - SpeechPad)
  }

  /** The end of speech `i` after the padding loop. */
  function PaddedEnd(sp: seq<Span>, i: nat, len: nat): int
    requires i < |sp|
  {
    if i == |sp| - 1 then Min(len, sp[i].end + SpeechPad)
    else
      var gap := sp[i + 1].start - sp[i].end;
      if gap < 2 * SpeechPad then sp[i].end + gap / 2 else Min(len, sp[i].end + SpeechPad)
  }

  function Padded(sp: seq<Span>, len: nat): (r: seq<Span>)
    ensures |r| == |sp|
    ensures forall i :: 0 <= i < |sp| ==> r[i] == Span(PaddedStart(sp, i), PaddedEnd(sp, i, len))
  {
    seq(|sp|, i requires 0 <= i < |sp| => Span(PaddedStart(sp, i), PaddedEnd(sp, i, len)))
  }

  /** Padding keeps every speech inside [0, len], only widens it, and never
      makes neighbours overlap: a gap under `2*pad` is split in half between
      them. */
  lemma PaddedBounds(sp: seq<Span>, minSpeech: nat, len: nat)
    requires Ordered(sp, minSpeech, len)
    ensures var r := Padded(sp, len);
      && (forall j :: 0 <= j < |r| ==> 0 <= r[j].start <= sp[j].start && sp[j].end <= r[j].end <= len)
      && (forall j :: 0 <= j < |r| - 1 ==> r[j].end <= r[j + 1].start)
  {
    var r := Padded(sp, len);
    forall j | 0 <= j < |r|
      ensures 0 <= r[j].start <= sp[j].start && sp[j].end <= r[j].end <= len
    {
      PaddedWidens(sp, minSpeech, len, j);
    }
    forall j | 0 <= j < |r| - 1
      ensures r[j].end <= r[j + 1].start
    {
      PaddedApart(sp, minSpeech, len, j);
    }
  }

  lemma PaddedWidens(sp: seq<Span>, minSpeech: nat, len: nat, j: nat)
    requires Ordered(sp, minSpeech, len) && j < |sp|
    ensures 0 <= PaddedStart(sp, j) <= sp[j].start && sp[j].end <= PaddedEnd(sp, j, len) <= len
  {
    if j < |sp| - 1 {
      assert sp[j].end < sp[j + 1].start;
    }
  }

  lemma PaddedApart(sp: seq<Span>, minSpeech: nat, len: nat, j: nat)
    requires Ordered(sp, minSpeech, len) && j + 1 < |sp|
    ensures PaddedEnd(sp, j, len) <= PaddedStart(sp, j + 1)
  {
    var gap := sp[j + 1].start - sp[j].end;
    assert 2 * (gap / 2) <= gap;
  }

  /** The padding loop as written: speeches are patched in place, each
      iteration moving the current end and the next start. */
  method AddPadding(speeches: seq<Span>, len: nat) returns (sp: seq<Span>)
    ensures sp == Padded(speeches, len)
  {
    sp := speeches;
    var i := 0;
    while i < |sp|
      invariant 0 <= i <= |sp| == |speeches|
      invariant forall j :: 0 <= j < i ==> sp[j] == Padded(speeches, len)[j]
      invariant i < |sp| ==> (sp[i].end == speeches[i].end
        && sp[i].start == (if i == 0 then speeches[0].start else PaddedStart(speeches, i)))
      invariant forall j :: i < j < |sp| ==> sp[j] == speeches[j]
    {
      if i == 0 {
        sp := sp[i := sp[i].(start := Max(0, sp[i].start - SpeechPad))];
      }
      if i != |sp| - 1 {
        var gap := sp[i + 1].start - sp[i].end;
        if gap < 2 * SpeechPad {
          sp := sp[i := sp[i].(end := sp[i].end + gap / 2)];
          sp := sp[i + 1 := sp[i + 1].(start := Max(0, sp[i + 1].start - gap / 2))];
        } else {
          sp := sp[i := sp[i].(end := Min(len, sp[i].end + SpeechPad))];
          sp := sp[i + 1 := sp[i + 1].(start := Max(0, sp[i + 1].start - SpeechPad))];
        }
      } else {
        sp := sp[i := sp[i].(end := Min(len, sp[i].end + SpeechPad))];
      }
      i := i + 1;
    }
  }

  /** The whole pass: the loop over the probabilities, the open segment at the
      end, then the padding. */
  function SpeechTimestampsOnnx(c: VadParams, probs: seq<real>, len: nat): seq<Span> {
    Padded(Finish(c, Scan(c, probs, |probs|), len), len)
  }

  /** The probability loop as written. */
  method ScanProbabilities(c: VadParams, probs: seq<real>, len: nat) returns (speeches: seq<Span>)
    ensures speeches == Finish(c, Scan(c, probs, |probs|), len)
  {
    var triggered := false;
    var start := 0;
    var tempEnd := 0;
    speeches := [];
    var neg := NegThreshold(c.threshold);
    var i := 0;
    while i < |probs|
      invariant 0 <= i <= |probs|
      invariant Scan(c, probs, i) == ScanState(triggered, start, tempEnd, speeches)
    {
      var p := probs[i];
      if p >= c.threshold && tempEnd != 0 {
        tempEnd := 0;
      }
      var cur := Window * i;
      if p >= c.threshold && !triggered {
        triggered := true;
        start := cur;
      } else if p < neg && triggered {
        if tempEnd == 0 {
          tempEnd := cur;
        }
        if cur - tempEnd >= c.minSilenceSamples {
          if tempEnd - start > c.minSpeechSamples {
            speeches := speeches + [Span(start, tempEnd)];
          }
          tempEnd := 0;
          triggered := false;
        }
      }
      i := i + 1;
    }
    if triggered && len - start > c.minSpeechSamples {
      speeches := speeches + [Span(start, len)];
    }
  }

  /** `_get_speech_timestamps_onnx` after inference. */
  method GetSpeechTimestampsOnnx(c: VadParams, probs: seq<real>, len: nat) returns (speeches: seq<Span>)
    requires |probs| == WindowCount(len)
    ensures speeches == SpeechTimestampsOnnx(c, probs, len)
    ensures forall j :: 0 <= j < |speeches| ==> 0 <= speeches[j].start <= speeches[j].end <= len
    ensures forall j :: 0 <= j < |speeches| - 1 ==> speeches[j].end <= speeches[j + 1].start
  {
    var raw := ScanProbabilities(c, probs, len);
    FinishOrdered(c, probs, len);
    PaddedBounds(raw, c.minSpeechSamples, len);
    speeches := AddPadding(raw, len);
  }

  // ---------------------------------------------------------------------------
  // get_speech_timestamps and extract_speech_segments

  /** Length of `np.interp(np.arange(0, n, sr / 16000), ...)`: ceil(n * 16000 / sr). */
  function ResampledLength(n: nat, sr: nat): nat
    requires sr > 0
  {
    (n * 16000 + sr - 1) / sr
  }

  /** `get_speech_timestamps(audio, sample_rate)`: without a model the whole
      audio is one speech; otherwise the audio is resampled to 16 kHz when
      needed and the ONNX pass runs on it, and an exception there again gives
      one speech over the (resampled) audio. `predict(i)` is the probability
      of window `i`; `failed` says whether the pass raised. */
  function GetSpeechTimestamps(c: VadParams, n: nat, sr: nat, hasModel: bool, predict: nat -> real, failed: bool): (r: seq<Span>)
    requires sr > 0
    ensures !hasModel ==> r == [Span(0, n)]
    ensures hasModel ==> var len := if sr != 16000 then ResampledLength(n, sr) else n;
      forall j :: 0 <= j < |r| ==> 0 <= r[j].start <= r[j].end <= len
    ensures forall j :: 0 <= j < |r| - 1 ==> r[j].end <= r[j + 1].start
  {
    if !hasModel then [Span(0, n)]
    else
      var len := if sr != 16000 then ResampledLength(n, sr) else n;
      if failed then [Span(0, len)]
      else
        var probs := seq(WindowCount(len), i requires 0 <= i => predict(i));
        FinishOrdered(c, probs, len);
        PaddedBounds(Finish(c, Scan(c, probs, |probs|), len), c.minSpeechSamples, len);
        SpeechTimestampsOnnx(c, probs, len)
  }

  /** `audio[a:b]` for `0 <= a`, `0 <= b`: both ends clamped to the length, empty
      when `a >= b`. */
  function PySlice<T>(xs: seq<T>, a: nat, b: nat): (r: seq<T>)
    ensures |r| <= |xs|
    ensures a <= b <= |xs| ==> r == xs[a..b]
    ensures b <= a ==> r == []
  {
    var lo := Min(a, |xs|);
    var hi := Min(b, |xs|);
    if lo < hi then xs[lo..hi] else []
  }

  /** `extract_speech_segments(audio, sample_rate, padding_ms)`: a copy of the
      input without a model; nothing when there is no speech; otherwise the
      one slice from the first start minus the padding to the last end plus
      the padding, clamped to the audio. At a rate other than 16 kHz the
      timestamps count samples of the resampled audio while the slice is
      taken from the audio as given, as in the source. */
  function ExtractSpeechSegments(c: VadParams, audio: seq<real>, sr: nat, paddingMs: nat,
                                 hasModel: bool, predict: nat -> real, failed: bool): (r: seq<real>)
    requires sr > 0
    ensures !hasModel ==> r == audio
    ensures |r| <= |audio|
  {
    if !hasModel then audio
    else SpeechRange(audio, GetSpeechTimestamps(c, |audio|, sr, hasModel, predict, failed), paddingMs * sr / 1000)
  }

  /** The slice from the first start minus `pad` to the last end plus `pad`,
      clamped to the audio; nothing without speeches. */
  function SpeechRange(audio: seq<real>, ts: seq<Span>, pad: nat): (r: seq<real>)
    requires ts != [] ==> ts[|ts| - 1].end >= 0
    ensures |r| <= |audio|
  {
    if ts == [] then []
    else PySlice(audio, Max(0, ts[0].start - pad), Min(|audio|, ts[|ts| - 1].end + pad))
  }

  /** `r` is the extraction around the speeches `ts`: nothing without
      speeches; otherwise the slice from the first start less `pad` (or 0) to
      the last end plus `pad` (or the end of the audio), which is one
      contiguous piece of the audio holding every speech lying inside it. */
  ghost predicate CoversSpeech(audio: seq<real>, ts: seq<Span>, pad: nat, r: seq<real>)
    requires ts != [] ==> ts[|ts| - 1].end >= 0
  {
    && (ts == [] ==> r == [])
    && (ts != [] ==>
          var a := Max(0, ts[0].start - pad);
          && r == PySlice(audio, a, Min(|audio|, ts[|ts| - 1].end + pad))
          && (a <= |audio| ==> a + |r| <= |audio| && r == audio[a..a + |r|])
          && forall j :: 0 <= j < |ts| && ts[j].end <= |audio| ==> a <= ts[j].start && ts[j].end <= a + |r|)
  }

  /** With a model, the extracted audio is the extraction around the
      detected speeches. */
  lemma ExtractCoversSpeech(c: VadParams, audio: seq<real>, sr: nat, paddingMs: nat,
                            predict: nat -> real, failed: bool)
    requires sr > 0
    ensures var ts := GetSpeechTimestamps(c, |audio|, sr, true, predict, failed);
      CoversSpeech(audio, ts, paddingMs * sr / 1000, ExtractSpeechSegments(c, audio, sr, paddingMs, true, predict, failed))
  {
    var ts := GetSpeechTimestamps(c, |audio|, sr, true, predict, failed);
    SpeechRangeCovers(audio, ts, paddingMs * sr / 1000);
  }

  /** The range around speeches that follow one another holds each of them. */
  lemma SpeechRangeCovers(audio: seq<real>, ts: seq<Span>, pad: nat)
    requires forall i :: 0 <= i < |ts| ==> 0 <= ts[i].start <= ts[i].end
    requires forall i :: 0 <= i < |ts| - 1 ==> ts[i].end <= ts[i + 1].start
    ensures CoversSpeech(audio, ts, pad, SpeechRange(audio, ts, pad))
  {
    if ts != [] {
      var a := Max(0, ts[0].start - pad);
      var r := SpeechRange(audio, ts, pad);
      ChainedEnds(ts, 0);
      forall j | 0 <= j < |ts| && ts[j].end <= |audio|
        ensures a <= ts[j].start && ts[j].end <= a + |r|
      {
        ChainedEnds(ts, j);
      }
    }
  }

  /** In speeches that follow one another, each lies between the first start
      and the last end. */
  lemma {:induction false} ChainedEnds(ts: seq<Span>, j: nat)
    requires j < |ts|
    requires forall i :: 0 <= i < |ts| ==> ts[i].start <= ts[i].end
    requires forall i :: 0 <= i < |ts| - 1 ==> ts[i].end <= ts[i + 1].start
    ensures ts[0].start <= ts[j].start && ts[j].end <= ts[|ts| - 1].end
    decreases |ts| - j
  {
    ChainedStart(ts, j);
    if j + 1 < |ts| {
      ChainedEnds(ts, j + 1);
    }
  }

  lemma {:induction false} ChainedStart(ts: seq<Span>, j: nat)
    requires j < |ts|
    requires forall i :: 0 <= i < |ts| ==> ts[i].start <= ts[i].end
    requires forall i :: 0 <= i < |ts| - 1 ==> ts[i].end <= ts[i + 1].start
    ensures ts[0].start <= ts[j].start
  {
    if j > 0 {
      ChainedStart(ts, j - 1);
    }
  }

  // ---------------------------------------------------------------------------
  // is_speech_realtime

  /** Zero-pad or truncate to exactly `n` samples. */
  function FitTo(xs: seq<real>, n: nat): (r: seq<real>)
    ensures |r| == n
    ensures |xs| >= n ==> r == xs[..n]
    ensures |xs| < n ==> r[..|xs|] == xs && forall i :: |xs| <= i < n ==> r[i] == 0.0
  {
    if |xs| == n then xs
    else if |xs| < n then PadTo(xs, n)
    else xs[..n]
  }

  /** The chunk the model sees: 512 samples at 16 kHz; at other rates the
      chunk is first fitted to 256 samples, resampled, and fitted to 512. */
  function PrepareChunk(chunk: seq<real>, sr: nat, resample: seq<real> -> seq<real>): (r: seq<real>)
    ensures |r| == 512
    ensures sr == 16000 ==> r == FitTo(chunk, 512)
  {
    var req := if sr == 16000 then 512 else 256;
    var fitted := FitTo(chunk, req);
    if sr != 16000 then FitTo(resample(fitted), 512) else fitted
  }

  /** `is_speech_realtime`: without a model, the energy test on the chunk
      itself; with a model, `prob > threshold` on the prepared chunk, and the
      energy test on the prepared chunk if inference raised. */
  function IsSpeechRealtime(chunk: seq<real>, sr: nat, threshold: real, hasModel: bool,
                            resample: seq<real> -> seq<real>, prob: seq<real> -> Option<real>): (r: bool)
    ensures !hasModel ==> r == EnergyAbove(chunk)
    ensures hasModel && prob(PrepareChunk(chunk, sr, resample)).Some? ==>
      (r <==> prob(PrepareChunk(chunk, sr, resample)).value > threshold)
    ensures hasModel && prob(PrepareChunk(chunk, sr, resample)).None? ==>
      r == EnergyAbove(PrepareChunk(chunk, sr, resample))
  {
    if !hasModel then EnergyAbove(chunk)
    else
      var x := PrepareChunk(chunk, sr, resample);
      match prob(x)
      case Some(p) => p > threshold
      case None => EnergyAbove(x)
  }
}
