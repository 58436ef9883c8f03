/** `core/transcription/whisper_.py`: the text post-processing of the
    Whisper transcriber. The recognisers themselves (faster-whisper on
    Windows, mlx-whisper elsewhere) and the traditional-to-simplified
    converter are inputs; what is modelled is the language normalisation,
    when the conversion runs, and the hallucination filter applied last. */
module Whisper {
  import opened Common

  /** The repeat threshold of `(.)\1{14,}`: one character and 14 copies. */
  const LongRun: nat := 15

  /** The length of the run of `s[0]` that starts `s`. */
  function RunLen(s: string): (n: nat)
    requires s != []
    ensures 1 <= n <= |s|
    decreases |s|
  {
    if |s| == 1 || s[1] != s[0] then 1 else 1 + RunLen(s[1..])
  }

  /** `detect_hallucination`: `re.sub(r"(.)\1{14,}", r"\1", text)`. The
      regex is tried at each position from the left; at a character other
      than a newline (which `.` does not match) whose run from there has at
      least 15 copies, the greedy match takes the whole run and one copy is
      written; elsewhere the character is copied and the scan moves on. */
  function Dehallucinate(s: string): (r: string)
    ensures |r| <= |s|
    ensures s != [] ==> r != [] && r[0] == s[0]
    decreases |s|
  {
    if s == [] then []
    else if s[0] != '\n' && RunLen(s) >= LongRun then [s[0]] + Dehallucinate(s[RunLen(s)..])
    else [s[0]] + Dehallucinate(s[1..])
  }

  /** No position starts a run of 15 or more copies of a character other
      than a newline. */
  predicate NoLongRun(s: string)
    decreases |s|
  {
    s == [] || ((s[0] == '\n' || RunLen(s) < LongRun) && NoLongRun(s[1..]))
  }

  /** `c` repeated `n` times. */
  function Repeat(c: char, n: nat): (r: string)
    ensures |r| == n && forall k :: 0 <= k < n ==> r[k] == c
  {
    seq(n, k => c)
  }

  /** A run of `c` followed by a different character (or nothing) has
      exactly its own length as leading run. */
  lemma {:induction false} RunLenConcat(c: char, n: nat, b: string)
    requires n >= 1 && (b == [] || b[0] != c)
    ensures RunLen(Repeat(c, n) + b) == n
  {
    var t := Repeat(c, n) + b;
    if n > 1 {
      assert t[1..] == Repeat(c, n - 1) + b;
      RunLenConcat(c, n - 1, b);
    }
  }

  /** The leading run is made of copies of `s[0]` and is maximal. */
  lemma {:induction false} RunShape(s: string)
    requires s != []
    ensures s[..RunLen(s)] == Repeat(s[0], RunLen(s))
    ensures RunLen(s) < |s| ==> s[RunLen(s)] != s[0]
    decreases |s|
  {
    if |s| > 1 && s[1] == s[0] {
      RunShape(s[1..]);
    }
  }

  /** A run the filter leaves alone (shorter than 15, or of newlines) is
      copied through whole. */
  lemma {:induction false} ShortRunKept(c: char, n: nat, b: string)
    requires (b == [] || b[0] != c) && (c == '\n' || n < LongRun)
    ensures Dehallucinate(Repeat(c, n) + b) == Repeat(c, n) + Dehallucinate(b)
  {
    if n == 0 {
      assert Repeat(c, n) + b == b;
    } else {
      var t, rest, d := Repeat(c, n) + b, Repeat(c, n - 1), Dehallucinate(b);
      RepeatCons(c, n, b);
      calc {
        Dehallucinate(t);
      == { RunLenConcat(c, n, b); KeptStep(t); }
        [c] + Dehallucinate(rest + b);
      == { ShortRunKept(c, n - 1, b); }
        [c] + (rest + d);
      ==
        ([c] + rest) + d;
      }
    }
  }

  /** A run followed by `b`, seen from its first character. */
  lemma RepeatCons(c: char, n: nat, b: string)
    requires n >= 1
    ensures Repeat(c, n) == [c] + Repeat(c, n - 1)
    ensures (Repeat(c, n) + b)[0] == c && (Repeat(c, n) + b)[1..] == Repeat(c, n - 1) + b
  {
    assert Repeat(c, n) == [c] + Repeat(c, n - 1);
  }

  /** A character that does not start a long run is copied. */
  lemma KeptStep(t: string)
    requires t != [] && (t[0] == '\n' || RunLen(t) < LongRun)
    ensures Dehallucinate(t) == [t[0]] + Dehallucinate(t[1..])
  {
  }

  /** A run of 15 or more of a character other than a newline becomes that
      single character. */
  lemma LongRunCollapsed(c: char, n: nat, b: string)
    requires c != '\n' && n >= LongRun && (b == [] || b[0] != c)
    ensures Dehallucinate(Repeat(c, n) + b) == [c] + Dehallucinate(b)
  {
    var t := Repeat(c, n) + b;
    RunLenConcat(c, n, b);
    assert t[n..] == b;
  }

  lemma {:induction false} NoLongRunConcat(c: char, n: nat, b: string)
    requires n >= 1 && (b == [] || b[0] != c) && (c == '\n' || n < LongRun)
    requires NoLongRun(b)
    ensures NoLongRun(Repeat(c, n) + b)
  {
    var t := Repeat(c, n) + b;
    RunLenConcat(c, n, b);
    if n == 1 {
      assert t[1..] == b;
    } else {
      assert t[1..] == Repeat(c, n - 1) + b;
      NoLongRunConcat(c, n - 1, b);
    }
  }

  /** The filter leaves no long run behind. */
  lemma {:induction false} DehallucinateClean(s: string)
    ensures NoLongRun(Dehallucinate(s))
    decreases |s|
  {
    if s != [] {
      var c := s[0];
      var n := RunLen(s);
      RunShape(s);
      var b := s[n..];
      assert s == Repeat(c, n) + b;
      DehallucinateClean(b);
      if c != '\n' && n >= LongRun {
        NoLongRunConcat(c, 1, Dehallucinate(b));
      } else {
        ShortRunKept(c, n, b);
        NoLongRunConcat(c, n, Dehallucinate(b));
      }
    }
  }

  /** Text without long runs passes through unchanged. */
  lemma {:induction false} CleanUnchanged(s: string)
    requires NoLongRun(s)
    ensures Dehallucinate(s) == s
    decreases |s|
  {
    if s != [] {
      CleanUnchanged(s[1..]);
    }
  }

  /** Filtering twice is filtering once. */
  lemma DehallucinateIdempotent(s: string)
    ensures Dehallucinate(Dehallucinate(s)) == Dehallucinate(s)
  {
    DehallucinateClean(s);
    CleanUnchanged(Dehallucinate(s));
  }

  /** A text shorter than 15 characters is never changed. */
  lemma ShortTextUnchanged(s: string)
    requires |s| < LongRun
    ensures Dehallucinate(s) == s
  {
    ShortNoLongRun(s);
    CleanUnchanged(s);
  }

  lemma {:induction false} ShortNoLongRun(s: string)
    requires |s| < LongRun
    ensures NoLongRun(s)
    decreases |s|
  {
    if s != [] {
      ShortNoLongRun(s[1..]);
    }
  }

  /** The language used: `language or kw.get("lang")` (an empty string is
      false in Python), with `"auto"` meaning automatic detection. */
  function Language(language: Option<string>, kwLang: Option<string>): (r: Option<string>)
    ensures r != Some("auto")
    ensures language.Some? && language.value != "" && language.value != "auto" ==> r == language
    ensures (language.None? || language.value == "") && kwLang.Some? && kwLang.value != "auto" ==> r == kwLang
  {
    var lang := if language.Some? && language.value != "" then language else kwLang;
    if lang == Some("auto") then None else lang
  }

  /** `lang and (lang == "zh" or lang.startswith("zh"))`. */
  predicate ToSimplified(lang: Option<string>) {
    lang.Some? && lang.value != "" && (lang.value == "zh" || IsPrefix("zh", lang.value))
  }

  /** Conversion runs exactly for the Chinese language codes. */
  lemma ToSimplifiedChinese(lang: Option<string>)
    ensures ToSimplified(lang) <==> lang.Some? && |lang.value| >= 2 && lang.value[..2] == "zh"
  {
  }

  /** `transcribe`: the recogniser's text (on Windows the segment texts
      joined), converted to simplified Chinese for a Chinese language, then
      filtered; the filter runs last on both platforms, so no long run
      survives whatever the converter returns. */
  function Transcribe(windows: bool, segments: seq<string>, mlxText: string,
                      language: Option<string>, kwLang: Option<string>,
                      toSimplified: string -> string): (r: string)
    ensures NoLongRun(r)
  {
    var raw := if windows then Flatten(segments) else mlxText;
    var text := if ToSimplified(Language(language, kwLang)) then toSimplified(raw) else raw;
    DehallucinateClean(text);
    Dehallucinate(text)
  }

  /** Outside Chinese, a recognised text without long runs is returned as
      the recogniser produced it. */
  lemma TranscribePassThrough(windows: bool, segments: seq<string>, mlxText: string,
                              language: Option<string>, kwLang: Option<string>,
                              toSimplified: string -> string)
    requires !ToSimplified(Language(language, kwLang))
    requires NoLongRun(if windows then Flatten(segments) else mlxText)
    ensures Transcribe(windows, segments, mlxText, language, kwLang, toSimplified)
      == (if windows then Flatten(segments) else mlxText)
  {
    CleanUnchanged(if windows then Flatten(segments) else mlxText);
  }

  /** `get_supported_languages`: every language. */
  function SupportedLanguages(): (r: seq<string>)
    ensures r == ["*"]
  {
    ["*"]
  }
}
