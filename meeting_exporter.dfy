/** `core/meeting/meeting_exporter.py`: what the exporter writes at the end of
    a meeting. The transcript file lists the entries in time order, one
    `[HH:MM:SS] tag text` line each, between a header and a footer; when a
    summary can be generated it is put in front. The audio is written as
    16-bit samples.

    The summariser (an LLM call) is an input that may fail (`None`), and the
    two formatted date-times (`meeting_start_time` and `now`) are inputs.
    Directories, file names and the MP3 conversion are not modelled. */
module MeetingExporter {
  import opened Common
  import opened TranscriptionProcessor

  // ---------------------------------------------------------------------------
  // Time of day

  function Digit(d: nat): char
    requires d < 10
  {
    "0123456789"[d]
  }

  /** `%02d`. */
  function TwoDigits(n: nat): (r: string)
    requires n < 100
    ensures |r| == 2
  {
    [Digit(n / 10), Digit(n % 10)]
  }

  /** `strftime('%H:%M:%S')` of a time stamp counted in seconds. */
  function Clock(t: int): (r: string)
    ensures |r| == 8 && r[2] == ':' && r[5] == ':'
  {
    var s := t % 86400;
    var rem := s % 3600;
    TwoDigits(s / 3600) + ":" + TwoDigits(rem / 60) + ":" + TwoDigits(rem % 60)
  }

  function DigitValue(c: char): int {
    c as int - '0' as int
  }

  /** Reads `HH:MM:SS` back into seconds since midnight. */
  function ParseClock(r: string): int
    requires |r| == 8
  {
    (DigitValue(r[0]) * 10 + DigitValue(r[1])) * 3600
      + (DigitValue(r[3]) * 10 + DigitValue(r[4])) * 60
      + DigitValue(r[6]) * 10 + DigitValue(r[7])
  }

  lemma TwoDigitsRoundTrip(n: nat)
    requires n < 100
    ensures var r := TwoDigits(n); DigitValue(r[0]) * 10 + DigitValue(r[1]) == n
  {
    var r := TwoDigits(n);
    assert DigitValue(r[0]) == n / 10 && DigitValue(r[1]) == n % 10 by {
      assert DigitValue(Digit(n / 10)) == n / 10;
      assert DigitValue(Digit(n % 10)) == n % 10;
    }
  }

  /** The clock text names the time of day of the stamp exactly. */
  lemma ClockRoundTrip(t: int)
    ensures ParseClock(Clock(t)) == t % 86400
  {
    var s := t % 86400;
    var rem := s % 3600;
    var h, m, sec := s / 3600, rem / 60, rem % 60;
    TwoDigitsRoundTrip(h);
    TwoDigitsRoundTrip(m);
    TwoDigitsRoundTrip(sec);
    var r := Clock(t);
    assert r == TwoDigits(h) + ":" + TwoDigits(m) + ":" + TwoDigits(sec);
    assert r[0..2] == TwoDigits(h) && r[3..5] == TwoDigits(m) && r[6..8] == TwoDigits(sec);
    assert s == h * 3600 + rem && rem == m * 60 + sec;
  }

  // ---------------------------------------------------------------------------
  // Ordering: `sorted(transcripts, key=lambda x: x['timestamp'])`

  predicate SortedByTime(s: seq<Entry>) {
    forall i, j :: 0 <= i < j < |s| ==> s[i].timestamp <= s[j].timestamp
  }

  /** The tail of a sorted list is sorted, and its head is its earliest
      entry. */
  lemma SortedTail(s: seq<Entry>)
    requires s != [] && SortedByTime(s)
    ensures SortedByTime(s[1..])
    ensures forall i :: 0 <= i < |s| ==> s[0].timestamp <= s[i].timestamp
  {
    var tail := s[1..];
    assert forall i :: 0 <= i < |tail| ==> tail[i] == s[i + 1];
  }

  /** Puts `e` after every entry that is not later than it. */
  function InsertByTime(e: Entry, s: seq<Entry>): seq<Entry> {
    if s == [] then [e]
    else if e.timestamp < s[0].timestamp then [e] + s
    else [s[0]] + InsertByTime(e, s[1..])
  }

  /** A stable sort by time stamp (insertion sort). */
  function SortByTime(es: seq<Entry>): seq<Entry> {
    if es == [] then [] else InsertByTime(es[|es| - 1], SortByTime(es[..|es| - 1]))
  }

  lemma {:induction false} InsertByTimeProps(e: Entry, s: seq<Entry>)
    requires SortedByTime(s)
    ensures SortedByTime(InsertByTime(e, s))
    ensures multiset(InsertByTime(e, s)) == multiset(s) + multiset{e}
  {
    InsertByTimeSorted(e, s);
    InsertByTimeMultiset(e, s);
  }

  lemma {:induction false} InsertByTimeMultiset(e: Entry, s: seq<Entry>)
    ensures multiset(InsertByTime(e, s)) == multiset(s) + multiset{e}
  {
    if s != [] && e.timestamp >= s[0].timestamp {
      InsertByTimeMultiset(e, s[1..]);
      assert s == [s[0]] + s[1..];
    }
  }

  /** Inserting an entry no earlier than `b` among entries no earlier than
      `b` leaves every entry no earlier than `b`. */
  lemma {:induction false} InsertByTimeBound(e: Entry, s: seq<Entry>, b: int)
    requires e.timestamp >= b && forall i :: 0 <= i < |s| ==> s[i].timestamp >= b
    ensures forall i :: 0 <= i < |InsertByTime(e, s)| ==> InsertByTime(e, s)[i].timestamp >= b
  {
    if s != [] && e.timestamp >= s[0].timestamp {
      InsertByTimeBound(e, s[1..], b);
      var r := InsertByTime(e, s[1..]);
      assert InsertByTime(e, s) == [s[0]] + r;
    }
  }

  lemma SortedCons(x: Entry, r: seq<Entry>)
    requires SortedByTime(r) && forall i :: 0 <= i < |r| ==> x.timestamp <= r[i].timestamp
    ensures SortedByTime([x] + r)
  {
    var t := [x] + r;
    assert forall i :: 0 < i < |t| ==> t[i] == r[i - 1];
  }

  lemma {:induction false} InsertByTimeSorted(e: Entry, s: seq<Entry>)
    requires SortedByTime(s)
    ensures SortedByTime(InsertByTime(e, s))
  {
    if s == [] {
    } else if e.timestamp < s[0].timestamp {
      SortedCons(e, s);
    } else {
      var tail := s[1..];
      SortedTail(s);
      assert forall i :: 0 <= i < |tail| ==> tail[i] == s[i + 1];
      InsertByTimeSorted(e, tail);
      InsertByTimeBound(e, tail, s[0].timestamp);
      SortedCons(s[0], InsertByTime(e, tail));
    }
  }

  /** The entries come out in ascending time order and none is lost or
      added. */
  lemma SortByTimeProps(es: seq<Entry>)
    ensures SortedByTime(SortByTime(es))
    ensures multiset(SortByTime(es)) == multiset(es)
  {
    SortByTimeSorted(es);
    SortByTimeMultiset(es);
  }

  lemma {:induction false} SortByTimeSorted(es: seq<Entry>)
    ensures SortedByTime(SortByTime(es))
  {
    if es != [] {
      SortByTimeSorted(es[..|es| - 1]);
      InsertByTimeSorted(es[|es| - 1], SortByTime(es[..|es| - 1]));
    }
  }

  lemma {:induction false} SortByTimeMultiset(es: seq<Entry>)
    ensures multiset(SortByTime(es)) == multiset(es)
  {
    if es != [] {
      var init, last := es[..|es| - 1], es[|es| - 1];
      SortByTimeMultiset(init);
      InsertByTimeMultiset(last, SortByTime(init));
      assert es == init + [last];
    }
  }

  /** `[e]` when `e` is stamped `t`, else nothing. */
  function Hit(e: Entry, t: int): seq<Entry> {
    if e.timestamp == t then [e] else []
  }

  /** The entries stamped `t`, in order. */
  function AtTime(s: seq<Entry>, t: int): seq<Entry> {
    if s == [] then [] else Hit(s[0], t) + AtTime(s[1..], t)
  }

  lemma {:induction false} AtTimeNone(s: seq<Entry>, t: int)
    requires forall i :: 0 <= i < |s| ==> s[i].timestamp > t
    ensures AtTime(s, t) == []
  {
    if s != [] {
      AtTimeNone(s[1..], t);
    }
  }

  lemma {:induction false} AtTimeSnoc(s: seq<Entry>, e: Entry, t: int)
    ensures AtTime(s + [e], t) == AtTime(s, t) + Hit(e, t)
  {
    if s == [] {
      assert s + [e] == [e];
      assert [e][1..] == [];
    } else {
      var u := s + [e];
      assert u[0] == s[0] && u[1..] == s[1..] + [e];
      AtTimeSnoc(s[1..], e, t);
      var h, r, x := Hit(s[0], t), AtTime(s[1..], t), Hit(e, t);
      assert AtTime(u, t) == h + (r + x);
      assert h + (r + x) == (h + r) + x;
    }
  }

  lemma {:induction false} AtTimeInsert(e: Entry, s: seq<Entry>, t: int)
    requires SortedByTime(s)
    ensures AtTime(InsertByTime(e, s), t) == AtTime(s, t) + Hit(e, t)
  {
    if s == [] {
      assert [e][1..] == [];
    } else {
      SortedTail(s);
      if e.timestamp < s[0].timestamp {
        if e.timestamp == t {
          AtTimeNone(s, t);
        }
        assert ([e] + s)[1..] == s;
      } else {
        var tail := s[1..];
        AtTimeInsert(e, tail, t);
        var u := [s[0]] + InsertByTime(e, tail);
        assert u[0] == s[0] && u[1..] == InsertByTime(e, tail);
        var h, r, x := Hit(s[0], t), AtTime(tail, t), Hit(e, t);
        assert AtTime(u, t) == h + (r + x);
        assert h + (r + x) == (h + r) + x;
      }
    }
  }

  /** The sort is stable: entries with the same time stamp keep their
      original order. */
  lemma {:induction false} SortByTimeStable(es: seq<Entry>, t: int)
    ensures AtTime(SortByTime(es), t) == AtTime(es, t)
  {
    if es != [] {
      var init, last := es[..|es| - 1], es[|es| - 1];
      SortByTimeStable(init, t);
      SortByTimeSorted(init);
      AtTimeInsert(last, SortByTime(init), t);
      AtTimeSnoc(init, last, t);
      assert es == init + [last];
      assert SortByTime(es) == InsertByTime(last, SortByTime(init));
    }
  }

  // ---------------------------------------------------------------------------
  // Transcript text

  /** 🎤 for the microphone, 🔊 for system audio, ❓ otherwise. */
  function SourceTag(source: string): string {
    if source == Microphone then "🎤" else if source == System then "🔊" else "❓"
  }

  function Rule(): (r: string)
    ensures |r| == 60 && forall i :: 0 <= i < 60 ==> r[i] == '='
  {
    seq(60, _ => '=')
  }

  /** One entry's line in the file. */
  function Line(e: Entry): string {
    "[" + Clock(e.timestamp) + "] " + SourceTag(e.source) + " " + e.text + "\n\n"
  }

  /** One entry's line in the text handed to the summariser. */
  function TextOnlyLine(e: Entry): string {
    "[" + Clock(e.timestamp) + "] " + e.text
  }

  function Header(startStamp: string): string {
    "Meeting Recording - " + startStamp + "\n" + Rule() + "\n\n"
  }

  function Footer(endStamp: string): string {
    "\n" + Rule() + "\n" + "End of meeting - " + endStamp + "\n" + "\nLegend: 🎤=Microphone, 🔊=System Audio\n"
  }

  function Lines(s: seq<Entry>): (r: seq<string>)
    ensures |r| == |s| && forall i :: 0 <= i < |s| ==> r[i] == Line(s[i])
  {
    seq(|s|, i requires 0 <= i < |s| => Line(s[i]))
  }

  function TextOnlyLines(s: seq<Entry>): (r: seq<string>)
    ensures |r| == |s| && forall i :: 0 <= i < |s| ==> r[i] == TextOnlyLine(s[i])
  {
    seq(|s|, i requires 0 <= i < |s| => TextOnlyLine(s[i]))
  }

  function CountSource(s: seq<Entry>, source: string): nat {
    if s == [] then 0 else (if s[0].source == source then 1 else 0) + CountSource(s[1..], source)
  }

  lemma {:induction false} CountSourceSnoc(s: seq<Entry>, e: Entry, source: string)
    ensures CountSource(s + [e], source) == CountSource(s, source) + (if e.source == source then 1 else 0)
  {
    if s == [] {
      assert [e][1..] == [];
    } else {
      assert (s + [e])[1..] == s[1..] + [e];
      CountSourceSnoc(s[1..], e, source);
    }
  }

  lemma {:induction false} CountSourceInsert(e: Entry, s: seq<Entry>, source: string)
    ensures CountSource(InsertByTime(e, s), source) == CountSource(s, source) + (if e.source == source then 1 else 0)
  {
    if s != [] && e.timestamp >= s[0].timestamp {
      CountSourceInsert(e, s[1..], source);
      assert ([s[0]] + InsertByTime(e, s[1..]))[1..] == InsertByTime(e, s[1..]);
    } else if s != [] {
      assert ([e] + s)[1..] == s;
    }
  }

  /** Sorting does not change how many entries each source has, so the
      reported counts are those of the transcript list. */
  lemma {:induction false} CountSourceSorted(es: seq<Entry>, source: string)
    ensures CountSource(SortByTime(es), source) == CountSource(es, source)
  {
    if es != [] {
      var init, last := es[..|es| - 1], es[|es| - 1];
      CountSourceSorted(init, source);
      CountSourceInsert(last, SortByTime(init), source);
      CountSourceSnoc(init, last, source);
      assert es == init + [last];
    }
  }

  /** What `_save_transcripts` writes first, before any summary. */
  function TranscriptDocument(startStamp: string, endStamp: string, es: seq<Entry>): string {
    Header(startStamp) + Flatten(Lines(SortByTime(es))) + Footer(endStamp)
  }

  /** The file after the summary step: the summary block and a rule in front
      of the existing content, or the existing content when summarising
      failed. */
  function WithSummary(summary: Option<string>, existing: string): (r: string)
    ensures summary.None? ==> r == existing
    ensures summary.Some? ==>
      r == "<summary>\n\n" + summary.value + "\n\n</summary>\n\n" + Rule() + "\n" + existing
  {
    if summary.Some? then "<summary>\n\n" + summary.value + "\n\n</summary>\n\n" + Rule() + "\n" + existing
    else existing
  }

  /** The existing content always survives the summary step unchanged, at
      the end of the file. */
  lemma WithSummaryKeepsContent(summary: Option<string>, existing: string)
    ensures var r := WithSummary(summary, existing);
      |existing| <= |r| && r[|r| - |existing|..] == existing
  {
  }

  /** The loop of `_save_transcripts` over the sorted entries: one file line
      and one summariser line per entry, and the per-source counts. */
  method FormatEntries(sorted: seq<Entry>) returns (lines: seq<string>, textOnly: seq<string>, micCount: nat, systemCount: nat)
    ensures lines == Lines(sorted) && textOnly == TextOnlyLines(sorted)
    ensures micCount == CountSource(sorted, Microphone) && systemCount == CountSource(sorted, System)
  {
    lines, textOnly := [], [];
    micCount, systemCount := 0, 0;
    for i := 0 to |sorted|
      invariant lines == Lines(sorted[..i]) && textOnly == TextOnlyLines(sorted[..i])
      invariant micCount == CountSource(sorted[..i], Microphone)
      invariant systemCount == CountSource(sorted[..i], System)
    {
      var entry := sorted[i];
      FormatPrefix(sorted, i);
      lines := lines + [Line(entry)];
      textOnly := textOnly + [TextOnlyLine(entry)];
      if entry.source == Microphone {
        micCount := micCount + 1;
      }
      if entry.source == System {
        systemCount := systemCount + 1;
      }
    }
    assert sorted[..|sorted|] == sorted;
  }

  /** One more entry of the list formatted and counted. */
  lemma FormatPrefix(s: seq<Entry>, i: nat)
    requires i < |s|
    ensures Lines(s[..i + 1]) == Lines(s[..i]) + [Line(s[i])]
    ensures TextOnlyLines(s[..i + 1]) == TextOnlyLines(s[..i]) + [TextOnlyLine(s[i])]
    ensures CountSource(s[..i + 1], Microphone) == CountSource(s[..i], Microphone) + (if s[i].source == Microphone then 1 else 0)
    ensures CountSource(s[..i + 1], System) == CountSource(s[..i], System) + (if s[i].source == System then 1 else 0)
  {
    assert s[..i + 1] == s[..i] + [s[i]];
    LinesSnoc(s[..i], s[i]);
    CountSourceSnoc(s[..i], s[i], Microphone);
    CountSourceSnoc(s[..i], s[i], System);
  }

  lemma LinesSnoc(s: seq<Entry>, e: Entry)
    ensures Lines(s + [e]) == Lines(s) + [Line(e)]
    ensures TextOnlyLines(s + [e]) == TextOnlyLines(s) + [TextOnlyLine(e)]
  {
    assert Lines(s + [e]) == Lines(s) + [Line(e)];
    assert TextOnlyLines(s + [e]) == TextOnlyLines(s) + [TextOnlyLine(e)];
  }

  /** `_save_transcripts`: header, the formatted entries and footer, then
      the summary step; the counts it reports. */
  method SaveTranscripts(startStamp: string, endStamp: string, transcripts: seq<Entry>, summarize: string -> Option<string>)
      returns (file: string, micCount: nat, systemCount: nat)
    ensures file == WithSummary(summarize(Join(TextOnlyLines(SortByTime(transcripts)), "\n")),
                                TranscriptDocument(startStamp, endStamp, transcripts))
    ensures micCount == CountSource(transcripts, Microphone)
    ensures systemCount == CountSource(transcripts, System)
  {
    var sorted := SortByTime(transcripts);
    var lines, textOnly;
    lines, textOnly, micCount, systemCount := FormatEntries(sorted);
    var content := [Header(startStamp)] + lines + [Footer(endStamp)];
    FlattenFramed(Header(startStamp), lines, Footer(endStamp));
    var existing := Flatten(content);
    CountSourceSorted(transcripts, Microphone);
    CountSourceSorted(transcripts, System);
    file := WithSummary(summarize(Join(textOnly, "\n")), existing);
  }

  /** Joining a list of lines framed by a first and a last line. */
  lemma FlattenFramed(first: string, lines: seq<string>, last: string)
    ensures Flatten([first] + lines + [last]) == first + Flatten(lines) + last
  {
    FlattenAppend([first], lines);
    FlattenAppend([first] + lines, [last]);
    assert Flatten([first]) == first + Flatten<char>([]);
    assert Flatten([last]) == last + Flatten<char>([]);
  }

  // ---------------------------------------------------------------------------
  // Audio (the int16 conversion is `Common.ToInt16`)

  /** What `save_meeting_results` writes. */
  datatype Saved = Saved(transcriptFile: Option<string>, audioSamples: Option<seq<int>>)

  /** `save_meeting_results`: nothing without a start time; the transcript
      file only for a non-empty list; the audio only when present and
      non-empty. */
  function SaveMeetingResults(startStamp: Option<string>, endStamp: string, transcripts: seq<Entry>,
                              finalAudio: Option<seq<real>>, summarize: string -> Option<string>): (r: Option<Saved>)
    ensures r.None? <==> startStamp.None?
    ensures r.Some? ==> (r.value.transcriptFile.Some? <==> transcripts != [])
    ensures r.Some? ==> (r.value.audioSamples.Some? <==> finalAudio.Some? && finalAudio.value != [])
    ensures r.Some? && r.value.audioSamples.Some? ==> r.value.audioSamples.value == ToInt16All(finalAudio.value)
    ensures r.Some? && r.value.transcriptFile.Some? ==>
      r.value.transcriptFile.value == WithSummary(summarize(Join(TextOnlyLines(SortByTime(transcripts)), "\n")),
                                                  TranscriptDocument(startStamp.value, endStamp, transcripts))
  {
    if startStamp.None? then None
    else
      var tf := if transcripts != [] then
                  Some(WithSummary(summarize(Join(TextOnlyLines(SortByTime(transcripts)), "\n")),
                                   TranscriptDocument(startStamp.value, endStamp, transcripts)))
                else None;
      var au := if finalAudio.Some? && |finalAudio.value| > 0 then Some(ToInt16All(finalAudio.value)) else None;
      Some(Saved(tf, au))
  }
}
