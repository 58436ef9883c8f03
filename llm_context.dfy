/** `core/llm_context.py`: the command-mode conversation history. The
    history file holds every message with its timestamp; loading keeps the
    messages of the last two hours, grouped into rounds that each start with
    a user message, and only the last eight rounds. New messages are
    appended and the file rewritten.

    Timestamps are whole seconds; the clock, the LLM itself and the
    filesystem scan for repositories are inputs. */
module LlmContext {
  import opened Common

  /** A history entry `{role, content, timestamp}`. */
  datatype Msg = Msg(role: string, content: string, timestamp: int)

  /** What reading the history file gives. */
  datatype HistoryFile = Missing | Undecodable | Stored(msgs: seq<Msg>)

  /** Two hours, in seconds. */
  const Window: int := 7200
  const MaxRounds: nat := 8

  /** The messages strictly later than `now - 2h`, in order. */
  function Recent(all: seq<Msg>, now: int): (r: seq<Msg>)
    ensures |r| <= |all|
    ensures forall k :: 0 <= k < |r| ==> r[k].timestamp > now - Window
  {
    if all == [] then []
    else
      var rest := Recent(all[..|all| - 1], now);
      if all[|all| - 1].timestamp > now - Window then rest + [all[|all| - 1]] else rest
  }

  /** Every recent message survives the filter. */
  lemma {:induction false} RecentKeeps(all: seq<Msg>, now: int, k: nat)
    requires k < |all| && all[k].timestamp > now - Window
    ensures all[k] in Recent(all, now)
  {
    if k < |all| - 1 {
      RecentKeeps(all[..|all| - 1], now, k);
      assert all[..|all| - 1][k] == all[k];
    }
  }

  /** A history written entirely in the window is kept whole. */
  lemma {:induction false} RecentAll(all: seq<Msg>, now: int)
    requires forall k :: 0 <= k < |all| ==> all[k].timestamp > now - Window
    ensures Recent(all, now) == all
  {
    if all != [] {
      RecentAll(all[..|all| - 1], now);
      assert all[..|all| - 1] + [all[|all| - 1]] == all;
    }
  }

  predicate IsUser(m: Msg) { m.role == "user" }

  /** The `(rounds, cur)` pair after the grouping loop has seen `xs`. */
  function Group(xs: seq<Msg>): (seq<seq<Msg>>, seq<Msg>) {
    if xs == [] then ([], [])
    else
      var (rounds, cur) := Group(xs[..|xs| - 1]);
      var m := xs[|xs| - 1];
      if IsUser(m) && cur != [] then (rounds + [cur], [m]) else (rounds, cur + [m])
  }

  /** The rounds: the final `cur` is appended when non-empty. */
  function Rounds(xs: seq<Msg>): seq<seq<Msg>> {
    var (rounds, cur) := Group(xs);
    if cur != [] then rounds + [cur] else rounds
  }

  /** A partition into rounds: non-empty, a user message only at the head
      of a round, and every round but the first headed by one. */
  predicate RoundShaped(rounds: seq<seq<Msg>>) {
    && (forall i :: 0 <= i < |rounds| ==> rounds[i] != [])
    && (forall i, j :: 0 <= i < |rounds| && 0 < j < |rounds[i]| ==> !IsUser(rounds[i][j]))
    && (forall i :: 0 < i < |rounds| ==> IsUser(rounds[i][0]))
  }

  lemma {:induction false} GroupProps(xs: seq<Msg>)
    ensures var (rounds, cur) := Group(xs);
      && Flatten(rounds) + cur == xs
      && RoundShaped(rounds)
      && (cur == [] <==> xs == [])
      && (forall j :: 0 < j < |cur| ==> !IsUser(cur[j]))
      && (rounds != [] ==> IsUser(cur[0]))
  {
    if xs != [] {
      var init := xs[..|xs| - 1];
      GroupProps(init);
      var (rounds, cur) := Group(init);
      var m := xs[|xs| - 1];
      assert xs == init + [m];
      if IsUser(m) && cur != [] {
        assert Group(xs) == (rounds + [cur], [m]);
        FlattenAppend(rounds, [cur]);
        assert Flatten([cur]) == cur;
        RoundShapedSnoc(rounds, cur);
      } else {
        var cur' := cur + [m];
        assert Group(xs) == (rounds, cur');
        assert Flatten(rounds) + cur' == xs;
        forall j | 0 < j < |cur'| ensures !IsUser(cur'[j]) {
          if j < |cur| {
            assert cur'[j] == cur[j];
          }
        }
      }
    }
  }

  /** Closing a round whose only user message is its head keeps the shape. */
  lemma RoundShapedSnoc(rounds: seq<seq<Msg>>, cur: seq<Msg>)
    requires RoundShaped(rounds) && cur != []
    requires forall j :: 0 < j < |cur| ==> !IsUser(cur[j])
    requires rounds != [] ==> IsUser(cur[0])
    ensures RoundShaped(rounds + [cur])
  {
    var r := rounds + [cur];
    assert forall i :: 0 <= i < |rounds| ==> r[i] == rounds[i];
  }

  /** The rounds partition the filtered list in order. */
  lemma RoundsProps(xs: seq<Msg>)
    ensures Flatten(Rounds(xs)) == xs
    ensures RoundShaped(Rounds(xs))
  {
    GroupProps(xs);
    var (rounds, cur) := Group(xs);
    if cur != [] {
      FlattenAppend(rounds, [cur]);
      assert Flatten([cur]) == cur;
    }
  }

  /** The messages `load_hist` keeps: the last eight rounds of the recent
      messages. */
  function History(all: seq<Msg>, now: int): seq<Msg> {
    Flatten(LastK(Rounds(Recent(all, now)), MaxRounds))
  }

  /** The kept history is a contiguous suffix of the recent messages that
      starts at a round boundary: with a user message, or it is all of
      them. */
  lemma HistoryIsSuffix(all: seq<Msg>, now: int)
    ensures var f := Recent(all, now); var h := History(all, now);
      && |h| <= |f| && h == f[|f| - |h|..]
      && (h != [] && |h| < |f| ==> IsUser(h[0]))
  {
    var f := Recent(all, now);
    var rounds := Rounds(f);
    RoundsProps(f);
    var kept := LastK(rounds, MaxRounds);
    var d := |rounds| - |kept|;
    assert rounds == rounds[..d] + kept;
    FlattenAppend(rounds[..d], kept);
    if Flatten(kept) != [] && d > 0 {
      assert rounds[d] == kept[0];
      assert kept[0] != [];
      assert Flatten(kept) == kept[0] + Flatten(kept[1..]);
    }
  }

  /** With at most eight rounds in the window, nothing recent is dropped. */
  lemma HistoryKeepsFewRounds(all: seq<Msg>, now: int)
    requires |Rounds(Recent(all, now))| <= MaxRounds
    ensures History(all, now) == Recent(all, now)
  {
    RoundsProps(Recent(all, now));
  }

  /** The system prompt's repository list: one `  - name` line per
      repository, empty without repositories. */
  function RepoList(names: seq<string>): (r: string)
    ensures names == [] ==> r == ""
  {
    if names == [] then ""
    else Join(seq(|names|, k requires 0 <= k < |names| => "  - " + names[k]), "\n")
  }

  /** Each repository gets exactly one line of the list. */
  lemma RepoListLines(names: seq<string>)
    requires names != []
    requires forall k :: 0 <= k < |names| ==> '\n' !in names[k]
    ensures Split(RepoList(names), '\n') == seq(|names|, k requires 0 <= k < |names| => "  - " + names[k])
  {
    var lines := seq(|names|, k requires 0 <= k < |names| => "  - " + names[k]);
    forall k | 0 <= k < |lines|
      ensures '\n' !in lines[k]
    {
      assert lines[k] == "  - " + names[k];
    }
    SplitJoin(lines, '\n');
  }

  const ReposPlaceholder: string := "{{Available Repositories}}"
  const WindowPlaceholder: string := "{{Current Window}}"
  const TimePlaceholder: string := "{{Current Time}}"

  /** `get_sys`: the template with its three placeholders replaced, in
      order, by the repository list, the active window and the time. */
  function SystemPrompt(tpl: string, names: seq<string>, window: string, time: string): string {
    Replace(Replace(Replace(tpl, ReposPlaceholder, RepoList(names)), WindowPlaceholder, window), TimePlaceholder, time)
  }

  /** A template without placeholders is sent unchanged. */
  lemma SystemPromptPlain(tpl: string, names: seq<string>, window: string, time: string)
    requires !Contains(tpl, ReposPlaceholder) && !Contains(tpl, WindowPlaceholder) && !Contains(tpl, TimePlaceholder)
    ensures SystemPrompt(tpl, names, window, time) == tpl
  {
    ReplaceAbsent(tpl, ReposPlaceholder, RepoList(names));
    ReplaceAbsent(tpl, WindowPlaceholder, window);
    ReplaceAbsent(tpl, TimePlaceholder, time);
  }

  /** A placeholder starting with "{{" cannot start inside another one that
      has no further '{' and differs from it at position `m`. */
  lemma ClearBraces(x: string, pat: string, m: nat)
    requires 2 <= m < |x| && m < |pat| && x[m] != pat[m]
    requires pat[0] == '{' && pat[1] == '{'
    requires forall i :: 2 <= i < |x| ==> x[i] != '{'
    ensures Clear(x, pat)
  {
    forall i | 0 <= i < |x|
      ensures MismatchAt(x, pat, i)
    {
      if i == 0 {
        assert x[i + m] != pat[m];
      } else if i == 1 {
        assert x[i + 1] != pat[1];
      } else {
        assert x[i + 0] != pat[0];
      }
    }
  }

  /** No placeholder starts inside a later one. */
  lemma PlaceholdersClear()
    ensures Clear(WindowPlaceholder, ReposPlaceholder)
    ensures Clear(TimePlaceholder, ReposPlaceholder)
    ensures Clear(TimePlaceholder, WindowPlaceholder)
  {
    ClearBraces(WindowPlaceholder, ReposPlaceholder, 2);
    ClearBraces(TimePlaceholder, ReposPlaceholder, 2);
    ClearBraces(TimePlaceholder, WindowPlaceholder, 10);
  }

  /** Three replacements in turn, each pattern occurring once between text
      clear of it, fill the three holes. */
  lemma FillThree(a: string, b: string, c: string, d: string, R: string, W: string, T: string,
                  vr: string, vw: string, vt: string)
    requires R != [] && W != [] && T != []
    requires Clear(a, R) && Clear(b + W + c + T + d, R)
    requires Clear(a + vr + b, W) && Clear(c + T + d, W)
    requires Clear(a + vr + b + vw + c, T) && Clear(d, T)
    ensures Replace(Replace(Replace(a + R + b + W + c + T + d, R, vr), W, vw), T, vt)
      == a + vr + b + vw + c + vt + d
  {
    var rest1 := b + W + c + T + d;
    assert a + R + b + W + c + T + d == a + R + rest1;
    ReplaceOne(a, R, rest1, vr);
    var pre1, rest2 := a + vr + b, c + T + d;
    assert a + vr + rest1 == pre1 + W + rest2;
    ReplaceOne(pre1, W, rest2, vw);
    var pre2 := a + vr + b + vw + c;
    assert pre1 + vw + rest2 == pre2 + T + d;
    ReplaceOne(pre2, T, d, vt);
    assert pre2 + vt + d == a + vr + b + vw + c + vt + d;
  }

  /** A template holding each placeholder once, in order, with no other '{':
      each placeholder is replaced by its value, provided the repository
      list and the window title bring no '{' of their own. */
  lemma SystemPromptFilled(a: string, b: string, c: string, d: string,
                           names: seq<string>, window: string, time: string)
    requires '{' !in a && '{' !in b && '{' !in c && '{' !in d
    requires '{' !in RepoList(names) && '{' !in window
    ensures SystemPrompt(a + ReposPlaceholder + b + WindowPlaceholder + c + TimePlaceholder + d, names, window, time)
      == a + RepoList(names) + b + window + c + time + d
  {
    var R, W, T, L := ReposPlaceholder, WindowPlaceholder, TimePlaceholder, RepoList(names);
    PlaceholdersClear();
    ClearOfHead(a, R);
    ClearOfHead(b, R);
    ClearOfHead(c, R);
    ClearOfHead(d, R);
    ClearConcat(b, W, R);
    ClearConcat(b + W, c, R);
    ClearConcat(b + W + c, T, R);
    ClearConcat(b + W + c + T, d, R);
    ClearOfHead(a + L + b, W);
    ClearOfHead(c, W);
    ClearOfHead(d, W);
    ClearConcat(c, T, W);
    ClearConcat(c + T, d, W);
    ClearOfHead(a + L + b + window + c, T);
    ClearOfHead(d, T);
    FillThree(a, b, c, d, R, W, T, L, window, time);
  }

  /** The messages `call_llm` sends: the system prompt, then the history as
      role and content in order, then the prompt when it is non-empty. */
  function Request(sys: string, msgs: seq<Msg>, prompt: Option<string>): (r: seq<(string, string)>)
    ensures |r| == 1 + |msgs| + (if prompt.Some? && prompt.value != "" then 1 else 0)
    ensures r[0] == ("system", sys)
    ensures forall k :: 0 <= k < |msgs| ==> r[k + 1] == (msgs[k].role, msgs[k].content)
    ensures prompt.Some? && prompt.value != "" ==> r[|r| - 1] == ("user", prompt.value)
  {
    [("system", sys)]
      + seq(|msgs|, k requires 0 <= k < |msgs| => (msgs[k].role, msgs[k].content))
      + (if prompt.Some? && prompt.value != "" then [("user", prompt.value)] else [])
  }

  /** The grouping loop of `load_hist`. */
  method GroupRounds(filtered: seq<Msg>) returns (rounds: seq<seq<Msg>>)
    ensures rounds == Rounds(filtered)
  {
    rounds := [];
    var cur: seq<Msg> := [];
    var i := 0;
    while i < |filtered|
      invariant 0 <= i <= |filtered|
      invariant (rounds, cur) == Group(filtered[..i])
    {
      var m := filtered[i];
      assert filtered[..i + 1][..i] == filtered[..i];
      if m.role == "user" && cur != [] {
        rounds := rounds + [cur];
        cur := [m];
      } else {
        cur := cur + [m];
      }
      i := i + 1;
    }
    assert filtered[..i] == filtered;
    if cur != [] {
      rounds := rounds + [cur];
    }
  }

  /** The module's state: the loaded history `msgs` and the file. */
  class Context {
    var msgs: seq<Msg>
    var historyFile: HistoryFile

    constructor (historyFile: HistoryFile)
      ensures msgs == [] && this.historyFile == historyFile
    {
      msgs := [];
      this.historyFile := historyFile;
    }

    /** `load_hist`: a missing or undecodable file leaves `msgs` empty;
        otherwise `msgs` is the recent history. The file is not changed. */
    method LoadHist(now: int)
      modifies this
      ensures historyFile == old(historyFile)
      ensures msgs == (match historyFile { case Stored(all) => History(all, now) case _ => [] })
    {
      match historyFile {
        case Missing =>
          msgs := [];
        case Undecodable =>
          msgs := [];
        case Stored(all) =>
          var filtered := Recent(all, now);
          var rounds := GroupRounds(filtered);
          msgs := Flatten(LastK(rounds, MaxRounds));
      }
    }

    /** `add_msg` then `save_hist`: one message appended, stamped `now`,
        and the file rewritten with the whole list. */
    method AddMsg(role: string, content: string, now: int)
      modifies this
      ensures msgs == old(msgs) + [Msg(role, content, now)]
      ensures historyFile == Stored(msgs)
    {
      msgs := msgs + [Msg(role, content, now)];
      historyFile := Stored(msgs);
    }
  }

  /** Saving and reloading within the window loses nothing when the history
      has at most eight rounds. */
  lemma ReloadAfterAdd(msgs: seq<Msg>, now: int)
    requires forall k :: 0 <= k < |msgs| ==> msgs[k].timestamp > now - Window
    requires |Rounds(msgs)| <= MaxRounds
    ensures History(msgs, now) == msgs
  {
    RecentAll(msgs, now);
    HistoryKeepsFewRounds(msgs, now);
  }
}
