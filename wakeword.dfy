/** `core/wakeword.py`: `detect_from_audio`, the wake-word check run on the
    first 1.5 s of a recording. The openWakeWord model is an input: loading
    it or running it either raises (`raises`) or maps each 1280-sample frame
    to the confidences of its wake words (`predict`). */
module WakeWord {
  import opened Common

  const FrameSize: nat := 1280

  /** The recording as numpy holds it. */
  datatype Audio =
    | Float32(floats: seq<real>)
    | Int16(pcm: seq<int>)
    /** Any other integer dtype. */
    | OtherInt(ints: seq<int>)

  /** `astype(np.int16)` on an integer: the low 16 bits, read as signed. */
  function Wrap16(x: int): (r: int)
    ensures -32768 <= r <= 32767
    ensures (r - x) % 65536 == 0
    ensures -32768 <= x <= 32767 ==> r == x
  {
    (x + 32768) % 65536 - 32768
  }

  function AudioLength(a: Audio): nat {
    match a {
      case Float32(fs) => |fs|
      case Int16(ps) => |ps|
      case OtherInt(os) => |os|
    }
  }

  /** The int16 conversion: float32 is clipped and scaled by 32767, int16
      is kept, other integers are cast. */
  function ToPcm(a: Audio): (r: seq<int>)
    ensures |r| == AudioLength(a)
    ensures a.Float32? ==> forall i :: 0 <= i < |r| ==> r[i] == ToInt16(a.floats[i])
    ensures a.OtherInt? ==> forall i :: 0 <= i < |r| ==> r[i] == Wrap16(a.ints[i])
  {
    match a {
      case Float32(fs) => ToInt16All(fs)
      case Int16(ps) => ps
      case OtherInt(os) => seq(|os|, i requires 0 <= i < |os| => Wrap16(os[i]))
    }
  }

  /** The samples examined: the first `min(int(sr * 1.5), len)`. */
  function Examined(pcm: seq<int>, sampleRate: nat): (r: seq<int>)
    ensures |r| == Min(sampleRate * 3 / 2, |pcm|)
    ensures r == pcm[..|r|]
  {
    pcm[..Min(sampleRate * 3 / 2, |pcm|)]
  }

  /** The number of frames `range(0, L - 1280, 1280)` enumerates. */
  function FrameCountAsWritten(len: nat): nat {
    if len > FrameSize then (len - 1) / FrameSize else 0
  }

  /** The number of whole frames in `len` samples. */
  function FrameCount(len: nat): nat {
    len / FrameSize
  }

  /** The loop as written visits frame `k` exactly when its start is below
      `L - 1280`; every frame it visits lies wholly inside the prefix. */
  lemma FrameCountAsWrittenRange(len: nat, k: nat)
    ensures k < FrameCountAsWritten(len) <==> k * FrameSize < len - FrameSize
    ensures k < FrameCountAsWritten(len) ==> (k + 1) * FrameSize <= len
  {
  }

  /** Every whole frame is visited, and only whole frames. */
  lemma FrameCountRange(len: nat, k: nat)
    ensures k < FrameCount(len) <==> (k + 1) * FrameSize <= len
  {
  }

  /** The strict bound misses the last whole frame exactly when the prefix
      is a non-zero multiple of 1280 samples, and agrees otherwise. */
  lemma FrameCountDiffers(len: nat)
    ensures len > 0 && len % FrameSize == 0 ==> FrameCountAsWritten(len) == FrameCount(len) - 1
    ensures !(len > 0 && len % FrameSize == 0) ==> FrameCountAsWritten(len) == FrameCount(len)
  {
  }

  /** 2560 samples hold two whole frames, but only the first is scored. */
  lemma SkippedLastFrame()
    ensures FrameCount(2560) == 2 && FrameCountAsWritten(2560) == 1
  {
  }

  /** Frame `k`: samples `[1280 k, 1280 (k + 1))`. */
  function Frame(x: seq<int>, k: nat): (r: seq<int>)
    requires (k + 1) * FrameSize <= |x|
    ensures |r| == FrameSize
  {
    x[k * FrameSize..(k + 1) * FrameSize]
  }

  function RMax(a: real, b: real): real {
    if b > a then b else a
  }

  /** `acc` folded with `max` over `cs`, left to right. */
  function MaxWith(acc: real, cs: seq<real>): real {
    if cs == [] then acc else RMax(MaxWith(acc, cs[..|cs| - 1]), cs[|cs| - 1])
  }

  lemma {:induction false} MaxWithProps(acc: real, cs: seq<real>)
    ensures MaxWith(acc, cs) >= acc
    ensures forall j :: 0 <= j < |cs| ==> MaxWith(acc, cs) >= cs[j]
    ensures MaxWith(acc, cs) == acc || exists j :: 0 <= j < |cs| && MaxWith(acc, cs) == cs[j]
  {
    if cs != [] {
      var init := cs[..|cs| - 1];
      MaxWithProps(acc, init);
      assert forall j :: 0 <= j < |init| ==> init[j] == cs[j];
    }
  }

  /** `max_conf` after the first `n` frames of `x`. */
  function Confidence(x: seq<int>, predict: seq<int> -> seq<real>, n: nat): real
    requires n * FrameSize <= |x|
  {
    if n == 0 then 0.0 else MaxWith(Confidence(x, predict, n - 1), predict(Frame(x, n - 1)))
  }

  /** The confidence is the maximum of 0 and of every prediction for every
      frame scored. */
  lemma {:induction false} ConfidenceIsMax(x: seq<int>, predict: seq<int> -> seq<real>, n: nat)
    requires n * FrameSize <= |x|
    ensures Confidence(x, predict, n) >= 0.0
    ensures forall k, j :: 0 <= k < n && 0 <= j < |predict(Frame(x, k))| ==>
      Confidence(x, predict, n) >= predict(Frame(x, k))[j]
    ensures Confidence(x, predict, n) == 0.0 ||
      exists k, j :: 0 <= k < n && 0 <= j < |predict(Frame(x, k))| && Confidence(x, predict, n) == predict(Frame(x, k))[j]
  {
    if n > 0 {
      ConfidenceIsMax(x, predict, n - 1);
      MaxWithProps(Confidence(x, predict, n - 1), predict(Frame(x, n - 1)));
    }
  }

  /** The result of `detect_from_audio`: `(max_conf > threshold, max_conf)`,
      or `(False, 0.0)` when an exception is raised. */
  function Detection(audio: Audio, sampleRate: nat, threshold: real, raises: bool,
                     predict: seq<int> -> seq<real>): (bool, real)
  {
    if raises then (false, 0.0)
    else
      var x := Examined(ToPcm(audio), sampleRate);
      var conf := Confidence(x, predict, FrameCount(|x|));
      (conf > threshold, conf)
  }

  /** `detect_from_audio` as written: the loop stops below `L - 1280`. */
  function DetectionAsWritten(audio: Audio, sampleRate: nat, threshold: real, raises: bool,
                              predict: seq<int> -> seq<real>): (r: (bool, real))
    ensures !raises ==> r.1 >= 0.0
  {
    if raises then (false, 0.0)
    else
      var x := Examined(ToPcm(audio), sampleRate);
      ConfidenceIsMax(x, predict, FrameCountAsWritten(|x|));
      var conf := Confidence(x, predict, FrameCountAsWritten(|x|));
      (conf > threshold, conf)
  }

  /** 0.16 s of audio whose wake word is in its second frame: as written it
      is missed, scoring every whole frame finds it. */
  lemma MissedInLastFrame()
    ensures var audio := Int16(seq(2560, i => if i < 1280 then 0 else 1));
      var predict := (f: seq<int>) => if |f| > 0 && f[0] == 1 then [0.9] else [0.0];
      && DetectionAsWritten(audio, 16000, 0.5, false, predict) == (false, 0.0)
      && Detection(audio, 16000, 0.5, false, predict) == (true, 0.9)
  {
    var audio := Int16(seq(2560, i => if i < 1280 then 0 else 1));
    var predict := (f: seq<int>) => if |f| > 0 && f[0] == 1 then [0.9] else [0.0];
    var x := Examined(ToPcm(audio), 16000);
    assert x == audio.pcm;
    assert Frame(x, 0)[0] == 0;
    assert Frame(x, 1)[0] == 1;
    assert MaxWith(0.0, [0.0]) == 0.0;
    assert Confidence(x, predict, 1) == 0.0;
    assert MaxWith(0.0, [0.9]) == 0.9;
  }

  /** With a non-negative threshold the wake word is detected exactly when
      some prediction for some whole frame of the first 1.5 s exceeds it. */
  lemma DetectionIff(audio: Audio, sampleRate: nat, threshold: real, predict: seq<int> -> seq<real>)
    requires threshold >= 0.0
    ensures var x := Examined(ToPcm(audio), sampleRate);
      Detection(audio, sampleRate, threshold, false, predict).0 <==>
        exists k, j :: 0 <= k < FrameCount(|x|) && 0 <= j < |predict(Frame(x, k))| && predict(Frame(x, k))[j] > threshold
  {
    var x := Examined(ToPcm(audio), sampleRate);
    ConfidenceIsMax(x, predict, FrameCount(|x|));
  }

  /** The frame loop of `detect_from_audio`, with the inner loop over the
      model's predictions; it scores every whole frame of the examined
      prefix. */
  method DetectFromAudio(audio: Audio, sampleRate: nat, threshold: real, raises: bool,
                         predict: seq<int> -> seq<real>) returns (detected: bool, conf: real)
    ensures (detected, conf) == Detection(audio, sampleRate, threshold, raises, predict)
  {
    if raises {
      return false, 0.0;
    }
    var pcm := ToPcm(audio);
    var x := pcm[..Min(sampleRate * 3 / 2, |pcm|)];
    conf := 0.0;
    var i := 0;
    while i + FrameSize <= |x|
      invariant i % FrameSize == 0 && i <= |x|
      invariant conf == Confidence(x, predict, i / FrameSize)
      decreases |x| - i
    {
      var pred := predict(x[i..i + FrameSize]);
      assert x[i..i + FrameSize] == Frame(x, i / FrameSize);
      ghost var before := conf;
      var j := 0;
      while j < |pred|
        invariant 0 <= j <= |pred|
        invariant conf == MaxWith(before, pred[..j])
      {
        assert pred[..j + 1][..j] == pred[..j];
        conf := RMax(conf, pred[j]);
        j := j + 1;
      }
      assert pred[..j] == pred;
      i := i + FrameSize;
    }
    assert i / FrameSize == FrameCount(|x|);
    detected := conf > threshold;
  }
}
