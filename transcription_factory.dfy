/** `core/transcription/__init__.py`: `create_transcriber`, the choice of
    speech recogniser from the configured model string. Whether the string
    names an existing local path is an input. */
module TranscriptionFactory {
  import opened Common

  /** The recogniser built, with the argument its constructor receives. */
  datatype Transcriber =
    | WhisperTranscriber(model: string)
    | NeMoTranscriber
    | FunAsrTranscriber(model: string)

  /** The result of `create_transcriber`: a recogniser, or the `ValueError`
      raised for an unsupported model string. */
  datatype Created = Made(t: Transcriber) | Unsupported(modelType: string)

  const WhisperPrefix: string := "whisper-"
  const FunAsrModel: string := "iic/speech_paraformer-large_asr_nat-zh-cn-16k-common-vocab8404-pytorch"

  /** The if/elif chain, tried in order. */
  function CreateTranscriber(modelType: string, pathExists: bool): (r: Created) {
    if pathExists && Contains(modelType, "whisper") then
      Made(WhisperTranscriber(modelType))
    else if Contains(Lower(modelType), "whisper") && Contains(modelType, "/") && !pathExists then
      Made(WhisperTranscriber(modelType))
    else if IsPrefix(WhisperPrefix, modelType) then
      Made(WhisperTranscriber(Replace(modelType, WhisperPrefix, "")))
    else if modelType == "parakeet" then
      Made(NeMoTranscriber)
    else if modelType == "funasr" then
      Made(FunAsrTranscriber(FunAsrModel))
    else
      Unsupported(modelType)
  }

  /** The error names the rejected string, and a Whisper recogniser is
      only built for a string that mentions "whisper" in some case. */
  lemma CreateTranscriberProps(modelType: string, pathExists: bool)
    ensures var r := CreateTranscriber(modelType, pathExists);
      && (r.Unsupported? ==> r.modelType == modelType)
      && (r.Made? && r.t.WhisperTranscriber? ==> Contains(Lower(modelType), "whisper"))
  {
    if pathExists && Contains(modelType, "whisper") {
      LowerKeeps(modelType, "whisper");
    } else if IsPrefix(WhisperPrefix, modelType) {
      PrefixLower(modelType);
    }
  }

  /** A name starting with "whisper-" mentions "whisper" once lower-cased. */
  lemma PrefixLower(s: string)
    requires IsPrefix(WhisperPrefix, s)
    ensures Contains(Lower(s), "whisper")
  {
    var l := Lower(s);
    forall i | 0 <= i < |WhisperPrefix|
      ensures l[i] == WhisperPrefix[i]
    {
      assert s[i] == WhisperPrefix[i];
    }
    assert IsPrefix(WhisperPrefix, l);
    PrefixContains(l, "whisper", WhisperPrefix);
  }

  /** Lower-casing keeps an all-lower-case infix. */
  lemma {:induction false} LowerKeeps(s: string, sub: string)
    requires Contains(s, sub) && Lower(sub) == sub
    ensures Contains(Lower(s), sub)
    decreases |s|
  {
    if IsPrefix(sub, s) {
      assert Lower(s)[..|sub|] == Lower(s[..|sub|]);
    } else {
      LowerKeeps(s[1..], sub);
      assert Lower(s)[1..] == Lower(s[1..]);
    }
  }

  lemma PrefixContains(s: string, sub: string, p: string)
    requires IsPrefix(p, s) && IsPrefix(sub, p)
    ensures Contains(s, sub)
  {
    assert s[..|sub|] == p[..|sub|];
  }

  /** An existing local path mentioning "whisper" is passed through as it
      is, even when it also starts with "whisper-": the first test wins. */
  lemma LocalWhisperPath(modelType: string)
    requires Contains(modelType, "whisper")
    ensures CreateTranscriber(modelType, true) == Made(WhisperTranscriber(modelType))
  {
  }

  /** A repository id such as "openai/Whisper-x" that is not a local path
      is passed through unchanged. */
  lemma RepoWhisper(modelType: string)
    requires Contains(Lower(modelType), "whisper") && Contains(modelType, "/")
    ensures CreateTranscriber(modelType, false) == Made(WhisperTranscriber(modelType))
  {
  }

  /** `whisper-<size>` (with no further "whisper-" and no "/") names the
      size with the prefix removed. */
  lemma WhisperVariant(size: string, pathExists: bool)
    requires !Contains(size, WhisperPrefix) && !Contains(size, "/")
    requires !pathExists
    ensures CreateTranscriber(WhisperPrefix + size, pathExists) == Made(WhisperTranscriber(size))
  {
    var m := WhisperPrefix + size;
    assert IsPrefix(WhisperPrefix, m) && m[|WhisperPrefix|..] == size;
    ReplaceAbsent(size, WhisperPrefix, "");
    assert Replace(m, WhisperPrefix, "") == "" + Replace(size, WhisperPrefix, "") == size;
    SlashAfterPrefix(size);
    assert CreateTranscriber(m, false) == Made(WhisperTranscriber(Replace(m, WhisperPrefix, "")));
  }

  lemma SlashAfterPrefix(size: string)
    requires !Contains(size, "/")
    ensures !Contains(WhisperPrefix + size, "/")
  {
    var m := WhisperPrefix + size;
    var k := 0;
    while k < |WhisperPrefix|
      invariant 0 <= k <= |WhisperPrefix|
      invariant Contains(m, "/") ==> Contains(m[k..], "/")
    {
      assert m[k..][1..] == m[k + 1..];
      assert !IsPrefix("/", m[k..]) by {
        assert m[k] == WhisperPrefix[k];
      }
      k := k + 1;
    }
    assert m[k..] == size;
  }

  /** A name with no 'w' or 'W' in it is only matched by the two fixed
      names. */
  lemma NamedModel(modelType: string, pathExists: bool)
    requires forall i :: 0 <= i < |modelType| ==> modelType[i] != 'w' && modelType[i] != 'W'
    ensures CreateTranscriber(modelType, pathExists) ==
      if modelType == "parakeet" then Made(NeMoTranscriber)
      else if modelType == "funasr" then Made(FunAsrTranscriber(FunAsrModel))
      else Unsupported(modelType)
  {
    NoW(modelType);
  }

  /** The two fixed names. */
  lemma FixedNames(pathExists: bool)
    ensures CreateTranscriber("parakeet", pathExists) == Made(NeMoTranscriber)
    ensures CreateTranscriber("funasr", pathExists) == Made(FunAsrTranscriber(FunAsrModel))
  {
    NamedModel("parakeet", pathExists);
    NamedModel("funasr", pathExists);
  }

  /** A string without 'w' or 'W' mentions no "whisper", in any case. */
  lemma NoW(s: string)
    requires forall i :: 0 <= i < |s| ==> s[i] != 'w' && s[i] != 'W'
    ensures !Contains(s, "whisper") && !Contains(Lower(s), "whisper")
  {
    if Contains(s, "whisper") {
      ContainsHead(s, "whisper");
    }
    if Contains(Lower(s), "whisper") {
      ContainsHead(Lower(s), "whisper");
    }
  }

  lemma {:induction false} ContainsHead(s: string, sub: string)
    requires sub != [] && Contains(s, sub)
    ensures sub[0] in s
    decreases |s|
  {
    if !IsPrefix(sub, s) {
      ContainsHead(s[1..], sub);
    }
  }

  /** Exactly the strings no branch accepts raise `ValueError`. */
  lemma UnsupportedExactly(modelType: string, pathExists: bool)
    ensures CreateTranscriber(modelType, pathExists).Unsupported? <==>
      && !(pathExists && Contains(modelType, "whisper"))
      && !(Contains(Lower(modelType), "whisper") && Contains(modelType, "/") && !pathExists)
      && !IsPrefix(WhisperPrefix, modelType)
      && modelType != "parakeet" && modelType != "funasr"
  {
  }
}
