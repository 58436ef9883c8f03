/** `core/command_mode.py`: command mode. The LLM's reply holds tagged calls
    `<name>args</name>`; tool calls feed results back to the LLM, and the
    first recognised command is executed, with up to two attempts.

    The LLM, the e-mail tool, the Cursor automation and the repository map
    are inputs: `llm(i)` is the reply to the i-th `call_llm`, `tool(i)` the
    result of the i-th tool call. The messages added to the history are
    returned rather than written. */
module CommandMode {
  import opened Common

  const Tools: seq<string> := ["get_emails"]
  const Cmds: seq<string> := ["say", "ask", "claude_code", "respond_to_email"]

  // ---------------------------------------------------------------------
  // Tag parsing: re.findall(r"<(\w+)>(.*?)</\1>", text, re.DOTALL)
  // ---------------------------------------------------------------------

  /** `\w` on ASCII: letters, digits and underscore. */
  predicate IsWordChar(c: char) {
    ('a' <= c <= 'z') || ('A' <= c <= 'Z') || ('0' <= c <= '9') || c == '_'
  }

  predicate IsName(s: string) {
    s != [] && forall k :: 0 <= k < |s| ==> IsWordChar(s[k])
  }

  function OpenTag(name: string): string { "<" + name + ">" }
  function CloseTag(name: string): string { "</" + name + ">" }
  function Tagged(name: string, content: string): string { OpenTag(name) + content + CloseTag(name) }

  predicate OccursAt(text: string, pat: string, k: nat) {
    k + |pat| <= |text| && text[k..k + |pat|] == pat
  }

  /** The first occurrence of `pat` at or after `from`. */
  function Find(text: string, pat: string, from: nat): (r: Option<nat>)
    requires from <= |text|
    ensures r.Some? ==> from <= r.value && r.value + |pat| <= |text|
    decreases |text| - from
  {
    if OccursAt(text, pat, from) then Some(from)
    else if from == |text| then None
    else Find(text, pat, from + 1)
  }

  /** `Find` returns the leftmost occurrence, and `None` only when there
      is none. */
  lemma {:induction false} FindSpec(text: string, pat: string, from: nat)
    requires from <= |text|
    ensures var r := Find(text, pat, from);
      && (r.Some? ==> OccursAt(text, pat, r.value) && forall k :: from <= k < r.value ==> !OccursAt(text, pat, k))
      && (r.None? ==> forall k :: from <= k <= |text| ==> !OccursAt(text, pat, k))
    decreases |text| - from
  {
    if !OccursAt(text, pat, from) && from < |text| {
      FindSpec(text, pat, from + 1);
    }
  }

  /** An occurrence with none before it is the one `Find` returns. */
  lemma {:induction false} FindFirst(text: string, pat: string, from: nat, p: nat)
    requires from <= p && OccursAt(text, pat, p)
    requires forall k :: from <= k < p ==> !OccursAt(text, pat, k)
    ensures Find(text, pat, from) == Some(p)
    decreases p - from
  {
    if from < p {
      FindFirst(text, pat, from + 1, p);
    }
  }

  /** The length of the run of word characters starting at `i`. */
  function WordRun(text: string, i: nat): (n: nat)
    requires i <= |text|
    ensures i + n <= |text|
    decreases |text| - i
  {
    if i < |text| && IsWordChar(text[i]) then 1 + WordRun(text, i + 1) else 0
  }

  /** `WordRun` is the whole run: word characters up to a non-word one. */
  lemma {:induction false} WordRunSpec(text: string, i: nat)
    requires i <= |text|
    ensures forall k :: i <= k < i + WordRun(text, i) ==> IsWordChar(text[k])
    ensures i + WordRun(text, i) < |text| ==> !IsWordChar(text[i + WordRun(text, i)])
    decreases |text| - i
  {
    if i < |text| && IsWordChar(text[i]) {
      WordRunSpec(text, i + 1);
    }
  }

  datatype Match = Match(name: string, content: string, end: nat)

  /** The match of the pattern at the start of `text`, if any: the name is
      the whole word run after `<`, the content the shortest text up to the
      matching closing tag. */
  function MatchAt(text: string): (r: Option<Match>)
    ensures r.Some? ==> 0 < r.value.end <= |text|
  {
    if |text| > 0 && text[0] == '<' then
      var n := WordRun(text, 1);
      if n > 0 && 1 + n < |text| && text[1 + n] == '>' then MatchClose(text, text[1..1 + n])
      else None
    else None
  }

  /** The rest of the match once the opening tag `<name>` is read: the
      content up to the first closing tag after it. */
  function MatchClose(text: string, name: string): (r: Option<Match>)
    requires 2 + |name| <= |text|
    ensures r.Some? ==> 0 < r.value.end <= |text|
  {
    match Find(text, CloseTag(name), 2 + |name|) {
      case None => None
      case Some(k) => Some(Match(name, text[2 + |name|..k], k + |CloseTag(name)|))
    }
  }

  lemma SliceSplit<T>(s: seq<T>, i: nat, j: nat, k: nat)
    requires i <= j <= k <= |s|
    ensures s[i..k] == s[i..j] + s[j..k]
  {
  }

  lemma SliceAfter<T>(p: seq<T>, q: seq<T>, x: nat, y: nat)
    requires x <= y <= |q|
    ensures (p + q)[|p| + x..|p| + y] == q[x..y]
  {
  }

  lemma Assoc<T>(a: seq<T>, b: seq<T>, c: seq<T>)
    ensures a + (b + c) == (a + b) + c
  {
  }

  lemma DropConcat<T>(a: seq<T>, b: seq<T>, j: nat)
    requires j <= |a|
    ensures (a + b)[j..] == a[j..] + b
  {
  }

  lemma TakeConcat<T>(a: seq<T>, b: seq<T>, len: nat)
    requires len <= |a|
    ensures (a + b)[..len] == a[..len]
  {
  }

  /** A match is a tagged call spanning `text[i..end]`, with a name made of
      word characters. */
  lemma OpenTagAt(text: string, n: nat)
    requires 2 + n <= |text| && text[0] == '<' && text[1 + n] == '>'
    ensures text[..2 + n] == OpenTag(text[1..1 + n])
  {
    SliceSplit(text, 0, 1, 2 + n);
    SliceSplit(text, 1, 1 + n, 2 + n);
    assert text[0..1] == "<";
    assert text[1 + n..2 + n] == ">";
    Assoc("<", text[1..1 + n], ">");
  }

  lemma ThreeParts<T>(s: seq<T>, p: nat, k: nat, e: nat)
    requires p <= k <= e <= |s|
    ensures s[..e] == s[..p] + s[p..k] + s[k..e]
  {
    SliceSplit(s, 0, p, e);
    SliceSplit(s, p, k, e);
    Assoc(s[..p], s[p..k], s[k..e]);
  }

  lemma MatchAtShape(text: string)
    requires MatchAt(text).Some?
    ensures var m := MatchAt(text).value;
      IsName(m.name) && text[..m.end] == Tagged(m.name, m.content)
  {
    var n := WordRun(text, 1);
    WordRunSpec(text, 1);
    var name := text[1..1 + n];
    assert MatchAt(text) == MatchClose(text, name);
    var close := CloseTag(name);
    var k := Find(text, close, 2 + n).value;
    FindSpec(text, close, 2 + n);
    var m := MatchAt(text).value;
    assert m == Match(name, text[2 + n..k], k + |close|);
    OpenTagAt(text, n);
    ThreeParts(text, 2 + n, k, m.end);
    assert text[k..m.end] == close;
  }

  /** `parse`: the stripped `(name, content)` pairs of the matches, in
      order; scanning resumes after each match, or one character on when
      there is none. */
  function Parse(text: string): seq<(string, string)>
    decreases |text|
  {
    if text == [] then []
    else
      match MatchAt(text) {
        case Some(m) => [(Strip(m.name), Strip(m.content))] + Parse(text[m.end..])
        case None => Parse(text[1..])
      }
  }

  /** `re.search(r"<name>(.*?)</name>", text, re.DOTALL)`, the stripped
      content of the first match: the leftmost opening tag that has a
      closing tag after it, up to the first such closing tag. */
  function SearchTag(name: string, text: string): Option<string>
    decreases |text|
  {
    if OccursAt(text, OpenTag(name), 0) then
      match Find(text, CloseTag(name), |OpenTag(name)|) {
        case Some(k) => Some(Strip(text[|OpenTag(name)|..k]))
        case None => SearchTag(name, text[1..])
      }
    else if text == [] then None
    else SearchTag(name, text[1..])
  }

  /** `parse_think`: the first think block's stripped content. */
  function ParseThink(text: string): Option<string> {
    SearchTag("think", text)
  }

  /** Without an opening tag there is no match. */
  lemma {:induction false} SearchTagAbsent(name: string, text: string)
    requires !Contains(text, OpenTag(name))
    ensures SearchTag(name, text) == None
    decreases |text|
  {
    assert !OccursAt(text, OpenTag(name), 0);
    if text != [] {
      SearchTagAbsent(name, text[1..]);
    }
  }

  /** The closing tag does not occur before the end of `content`, even
      overlapping into the closing tag that follows it. */
  predicate NoEarlyClose(content: string, name: string) {
    forall j :: 0 <= j < |content| ==> !CloseAt(content, name, j)
  }

  /** The closing tag starts at `content[j]`, possibly running on into
      the closing tag appended to `content`. */
  predicate CloseAt(content: string, name: string, j: nat)
    requires j <= |content|
  {
    EarlyAt(content, CloseTag(name), j)
  }

  predicate EarlyAt(content: string, close: string, j: nat)
    requires j <= |content|
  {
    IsPrefix(close, content[j..] + close)
  }

  lemma OccursAfter(open: string, content: string, close: string, rest: string)
    ensures OccursAt(open + (content + (close + rest)), close, |open| + |content|)
  {
    var q := content + (close + rest);
    SliceAfter(open, q, |content|, |content| + |close|);
    assert q[|content|..|content| + |close|] == close;
  }

  lemma NotOccursEarly(open: string, content: string, close: string, rest: string, j: nat)
    requires j < |content| && !EarlyAt(content, close, j)
    ensures !OccursAt(open + (content + (close + rest)), close, |open| + j)
  {
    var q := content + (close + rest);
    if j + |close| <= |q| {
      SliceAfter(open, q, j, j + |close|);
      DropConcat(content, close + rest, j);
      Assoc(content[j..], close, rest);
      TakeConcat(content[j..] + close, rest, |close|);
      assert q[j..j + |close|] == q[j..][..|close|];
    }
  }

  lemma FindCloseAfter(open: string, content: string, close: string, rest: string)
    requires forall j :: 0 <= j < |content| ==> !EarlyAt(content, close, j)
    ensures Find(open + (content + (close + rest)), close, |open|) == Some(|open| + |content|)
  {
    var t := open + (content + (close + rest));
    OccursAfter(open, content, close, rest);
    forall k | |open| <= k < |open| + |content|
      ensures !OccursAt(t, close, k)
    {
      NotOccursEarly(open, content, close, rest, k - |open|);
    }
    FindFirst(t, close, |open|, |open| + |content|);
  }

  /** With no early closing tag, the closing tag after `content` is the
      first one the lazy match finds. */
  lemma FindTagClose(name: string, content: string, rest: string)
    requires NoEarlyClose(content, name)
    ensures Find(Tagged(name, content) + rest, CloseTag(name), |OpenTag(name)|)
      == Some(|OpenTag(name)| + |content|)
  {
    var close := CloseTag(name);
    var open := OpenTag(name);
    assert forall j :: 0 <= j < |content| ==> !EarlyAt(content, close, j) by {
      forall j | 0 <= j < |content|
        ensures !EarlyAt(content, close, j)
      {
        assert !CloseAt(content, name, j);
      }
    }
    FindCloseAfter(open, content, close, rest);
    Assoc(open, content, close + rest);
    Assoc(open + content, close, rest);
    var t := Tagged(name, content) + rest;
    assert t == open + (content + (close + rest));
    assert |open| == |name| + 2;
  }

  lemma StripName(name: string)
    requires IsName(name)
    ensures Strip(name) == name
  {
    assert !IsSpace(name[0]) && !IsSpace(name[|name| - 1]);
    assert LStrip(name) == name;
  }

  /** A tagged call followed by anything parses as that call followed by
      what the rest parses to. */
  lemma ParseTagged(name: string, content: string, rest: string)
    requires IsName(name) && NoEarlyClose(content, name)
    ensures Parse(Tagged(name, content) + rest) == [(name, Strip(content))] + Parse(rest)
  {
    var tag := Tagged(name, content);
    var t := tag + rest;
    MatchAtTagged(name, content, rest);
    StripName(name);
    assert t[|tag|..] == rest;
  }

  /** The pattern matches a leading tagged call exactly. */
  lemma MatchAtTagged(name: string, content: string, rest: string)
    requires IsName(name) && NoEarlyClose(content, name)
    ensures MatchAt(Tagged(name, content) + rest) == Some(Match(name, content, |Tagged(name, content)|))
  {
    var t := Tagged(name, content) + rest;
    TaggedParts(name, content, rest);
    WordRunName(t, name);
    FindTagClose(name, content, rest);
    MatchAtParts(t, |name|, |name| + 2 + |content|, name, content);
  }

  /** A match read off its parts: `<`, a name run of length `n`, `>`, and
      the first closing tag after the content, at `k`. */
  lemma MatchAtParts(t: string, n: nat, k: nat, name: string, content: string)
    requires 0 < n && 1 + n < |t| && WordRun(t, 1) == n
    requires t[0] == '<' && t[1 + n] == '>'
    requires name == t[1..1 + n]
    requires Find(t, CloseTag(name), n + 2) == Some(k)
    requires content == t[n + 2..k]
    ensures MatchAt(t) == Some(Match(name, content, k + |CloseTag(name)|))
  {
  }

  /** Where the parts of a tagged call followed by `rest` lie. */
  lemma TaggedParts(name: string, content: string, rest: string)
    ensures var t := Tagged(name, content) + rest; var n := |name|;
      && |OpenTag(name)| == n + 2 && |Tagged(name, content)| == n + 2 + |content| + |CloseTag(name)|
      && t[..n + 2] == OpenTag(name)
      && t[0] == '<' && t[1..1 + n] == name && t[1 + n] == '>'
      && t[n + 2..n + 2 + |content|] == content
  {
    var t := Tagged(name, content) + rest;
    var n := |name|;
    var open, q := OpenTag(name), content + (CloseTag(name) + rest);
    assert t == open + q;
    assert t[..n + 2] == open;
    assert t[n + 2..n + 2 + |content|] == q[..|content|] == content;
  }

  /** The word run after `<` is exactly a name followed by a non-word
      character. */
  lemma WordRunName(t: string, name: string)
    requires IsName(name) && 1 + |name| < |t| && t[1..1 + |name|] == name && !IsWordChar(t[1 + |name|])
    ensures WordRun(t, 1) == |name|
  {
    WordRunSpec(t, 1);
  }

  function Calls(tags: seq<(string, string)>): string {
    if tags == [] then "" else Tagged(tags[0].0, tags[0].1) + Calls(tags[1..])
  }

  /** Round trip: a reply made of tagged calls parses to exactly those calls,
      in order, with their contents stripped. */
  lemma {:induction false} ParseCalls(tags: seq<(string, string)>)
    requires forall k :: 0 <= k < |tags| ==> IsName(tags[k].0) && NoEarlyClose(tags[k].1, tags[k].0)
    ensures |Parse(Calls(tags))| == |tags|
    ensures forall k :: 0 <= k < |tags| ==> Parse(Calls(tags))[k] == (tags[k].0, Strip(tags[k].1))
  {
    if tags != [] {
      ParseCalls(tags[1..]);
      ParseTagged(tags[0].0, tags[0].1, Calls(tags[1..]));
    }
  }

  /** The search finds the content of a leading tagged block. */
  lemma SearchTagTagged(name: string, content: string, rest: string)
    requires NoEarlyClose(content, name)
    ensures SearchTag(name, Tagged(name, content) + rest) == Some(Strip(content))
  {
    TaggedParts(name, content, rest);
    FindTagClose(name, content, rest);
  }

  /** `parse_think` finds the content of a leading think block. */
  lemma ParseThinkTagged(content: string, rest: string)
    requires NoEarlyClose(content, "think")
    ensures ParseThink(Tagged("think", content) + rest) == Some(Strip(content))
  {
    SearchTagTagged("think", content, rest);
  }

  // ---------------------------------------------------------------------
  // Filtering and command execution
  // ---------------------------------------------------------------------

  /** The calls whose name is in `names`, in order. */
  function Named(calls: seq<(string, string)>, names: seq<string>): (r: seq<(string, string)>)
    ensures |r| <= |calls|
    ensures forall k :: 0 <= k < |r| ==> r[k].0 in names
  {
    if calls == [] then []
    else (if calls[0].0 in names then [calls[0]] else []) + Named(calls[1..], names)
  }

  /** The first command is the first call, in reply order, that names a
      command. */
  lemma {:induction false} NamedFirst(calls: seq<(string, string)>, names: seq<string>)
    requires Named(calls, names) != []
    ensures exists i :: (0 <= i < |calls| && calls[i] == Named(calls, names)[0]
      && calls[i].0 in names && forall j :: 0 <= j < i ==> calls[j].0 !in names)
  {
    if calls[0].0 !in names {
      NamedFirst(calls[1..], names);
      var i :| 0 <= i < |calls[1..]| && calls[1..][i] == Named(calls[1..], names)[0]
        && calls[1..][i].0 in names && forall j :: 0 <= j < i ==> calls[1..][j].0 !in names;
      assert calls[i + 1] == Named(calls, names)[0];
    } else {
      assert calls[0] == Named(calls, names)[0];
    }
  }

  function StripAll(parts: seq<string>): (r: seq<string>)
    ensures |r| == |parts|
    ensures forall k :: 0 <= k < |parts| ==> r[k] == Strip(parts[k])
  {
    seq(|parts|, k requires 0 <= k < |parts| => Strip(parts[k]))
  }

  /** `[p.strip() for p in args.split('|')]`. */
  function Parts(args: string): (r: seq<string>)
    ensures |r| >= 1
  {
    StripAll(Split(args, '|'))
  }

  /** What executing a command does outside the model. */
  datatype Action =
    | Said(text: string)
    | Asked(question: string)
    | CursorInput(input: Option<string>)
    | OpenProject(path: string, input: Option<string>)
    | EmailReply(id: string, body: string)
    | NoAction

  /** `exec_cmd`: whether the command succeeded and what it did. `cursorOk`
      is the outcome of typing into the current Cursor window, `repo` the
      repository map, `openRaises` whether opening a project raised. */
  function ExecCmd(cmd: string, args: string, cursorOk: bool, repo: map<string, string>, openRaises: bool): (r: (bool, Action))
  {
    if cmd == "say" then (true, Said(args))
    else if cmd == "ask" then (true, Asked(args))
    else if cmd == "claude_code" then
      var parts := Parts(args);
      var proj := parts[0];
      var txt := if |parts| > 1 then Some(parts[1]) else None;
      if proj == "" then (cursorOk, CursorInput(txt))
      else if proj !in repo then (false, NoAction)
      else (!openRaises, OpenProject(repo[proj], txt))
    else if cmd == "respond_to_email" then
      var parts := Parts(args);
      if |parts| >= 2 then (true, EmailReply(parts[0], Join(parts[1..], "|")))
      else (false, NoAction)
    else (false, NoAction)
  }

  /** Only the text before the second `|` of a claude_code argument
      matters: the project is the first part, the input the second. */
  lemma ClaudeCodeArgs(proj: string, txt: string, more: string, cursorOk: bool, repo: map<string, string>, openRaises: bool)
    requires '|' !in proj && '|' !in txt
    ensures var r := ExecCmd("claude_code", proj + "|" + txt + "|" + more, cursorOk, repo, openRaises);
      && (Strip(proj) == "" ==> r == (cursorOk, CursorInput(Some(Strip(txt)))))
      && (Strip(proj) != "" && Strip(proj) !in repo ==> r == (false, NoAction))
      && (Strip(proj) != "" && Strip(proj) in repo ==> r == (!openRaises, OpenProject(repo[Strip(proj)], Some(Strip(txt)))))
  {
    SplitConcat(proj, txt + "|" + more, '|');
    SplitConcat(txt, more, '|');
    SplitAbsent(proj, '|');
    SplitAbsent(txt, '|');
    assert proj + "|" + txt + "|" + more == proj + ['|'] + (txt + ['|'] + more);
    assert txt + "|" + more == txt + ['|'] + more;
  }

  /** respond_to_email succeeds exactly when the argument has a `|`; the id
      is the first stripped part and the body the other stripped parts
      re-joined by `|`. */
  lemma RespondToEmailArgs(args: string, cursorOk: bool, repo: map<string, string>, openRaises: bool)
    ensures ExecCmd("respond_to_email", args, cursorOk, repo, openRaises).0 <==> '|' in args
    ensures '|' in args ==>
      ExecCmd("respond_to_email", args, cursorOk, repo, openRaises)
        == (true, EmailReply(Parts(args)[0], Join(Parts(args)[1..], "|")))
  {
    if '|' in args {
      SplitPresent(args, '|');
    } else {
      SplitAbsent(args, '|');
    }
  }

  /** An id and a body without `|`: the reply goes to the stripped id with
      the stripped body. */
  lemma RespondToEmailSimple(id: string, body: string, cursorOk: bool, repo: map<string, string>, openRaises: bool)
    requires '|' !in id && '|' !in body
    ensures ExecCmd("respond_to_email", id + "|" + body, cursorOk, repo, openRaises)
      == (true, EmailReply(Strip(id), Strip(body)))
  {
    assert id + "|" + body == id + ['|'] + body;
    SplitConcat(id, body, '|');
    SplitAbsent(id, '|');
    SplitAbsent(body, '|');
  }

  /** Only the four known commands can succeed; say and ask always do. */
  lemma ExecCmdKnown(cmd: string, args: string, cursorOk: bool, repo: map<string, string>, openRaises: bool)
    ensures ExecCmd(cmd, args, cursorOk, repo, openRaises).0 ==> cmd in Cmds
    ensures cmd == "say" || cmd == "ask" ==> ExecCmd(cmd, args, cursorOk, repo, openRaises).0
  {
  }

  // ---------------------------------------------------------------------
  // The retry loop of command_mode
  // ---------------------------------------------------------------------

  const ToolResultPrefix: string := "Tool result from "

  predicate IsToolResult(m: (string, string)) {
    m.0 == "user" && IsPrefix(ToolResultPrefix, m.1)
  }

  /** The user message that records result `res` of tool `name`. */
  function ToolMsg(name: string, res: string): (m: (string, string))
    ensures IsToolResult(m)
  {
    var text := ToolResultPrefix + name + ": " + res;
    assert text[..|ToolResultPrefix|] == ToolResultPrefix;
    ("user", text)
  }

  /** The tools a reply runs: its first three calls that name a tool. */
  function ToolsOf(reply: string): (r: seq<(string, string)>)
    ensures |r| <= 3
    ensures forall k :: 0 <= k < |r| ==> r[k].0 in Tools
  {
    var named := Named(Parse(reply), Tools);
    named[..Min(3, |named|)]
  }

  /** The messages the tool loop adds when the tools `ts` run as tool calls
      `c0`, `c0 + 1`, ...: one per result that is not `None`, in order. */
  function ToolMsgs(ts: seq<(string, string)>, tool: nat -> Option<string>, c0: nat): seq<(string, string)>
  {
    if ts == [] then []
    else
      var k := |ts| - 1;
      ToolMsgs(ts[..k], tool, c0) + (if tool(c0 + k).Some? then [ToolMsg(ts[k].0, tool(c0 + k).value)] else [])
  }

  /** At most one message per tool, each a tool result, and none exactly
      when every tool call returned `None`. */
  lemma {:induction false} ToolMsgsProps(ts: seq<(string, string)>, tool: nat -> Option<string>, c0: nat)
    ensures |ToolMsgs(ts, tool, c0)| <= |ts|
    ensures forall k :: 0 <= k < |ToolMsgs(ts, tool, c0)| ==> IsToolResult(ToolMsgs(ts, tool, c0)[k])
    ensures ToolMsgs(ts, tool, c0) == [] <==> forall c: nat :: c0 <= c < c0 + |ts| ==> tool(c).None?
  {
    if ts != [] {
      var k := |ts| - 1;
      ToolMsgsProps(ts[..k], tool, c0);
    }
  }

  /** The first command of a reply exists and succeeds. */
  predicate Succeeds(reply: string, cursorOk: bool, repo: map<string, string>, openRaises: bool) {
    var cmds := Named(Parse(reply), Cmds);
    cmds != [] && ExecCmd(cmds[0].0, cmds[0].1, cursorOk, repo, openRaises).0
  }

  /** The first reply names no tool and its first command succeeds. */
  predicate FirstReplySucceeds(reply: string, cursorOk: bool, repo: map<string, string>, openRaises: bool) {
    var calls := Parse(Strip(reply));
    && Named(calls, Tools) == [] && Named(calls, Cmds) != []
    && ExecCmd(Named(calls, Cmds)[0].0, Named(calls, Cmds)[0].1, cursorOk, repo, openRaises).0
  }

  /** What one attempt of the retry loop yields: the tool results it adds,
      the last reply it reads, the command it executes successfully (if
      any) and the numbers of the next LLM and tool calls. */
  datatype Round = Round(msgs: seq<(string, string)>, reply: string, executed: Option<(string, string)>,
                         llmCalls: nat, toolCalls: nat)

  /** The attempt whose first reply is LLM call `l` and whose tools start
      at tool call `t`: a second reply is read when a tool produced a
      result, and the last reply's first command is run. */
  function AttemptSpec(llm: nat -> string, tool: nat -> Option<string>, l: nat, t: nat,
                       cursorOk: bool, repo: map<string, string>, openRaises: bool): Round
  {
    var first := Strip(llm(l));
    var msgs := ToolMsgs(ToolsOf(first), tool, t);
    var reply := if msgs != [] then Strip(llm(l + 1)) else first;
    var executed := if Succeeds(reply, cursorOk, repo, openRaises) then Some(Named(Parse(reply), Cmds)[0]) else None;
    Round(msgs, reply, executed, if msgs != [] then l + 2 else l + 1, t + |ToolsOf(first)|)
  }

  /** The history messages, the executed command and the call counts of
      `command_mode`: the prompt, then the first attempt, then the second
      one unless the first succeeded. */
  function CommandModeSpec(prompt: string, llm: nat -> string, tool: nat -> Option<string>,
                           cursorOk: bool, repo: map<string, string>, openRaises: bool)
    : (seq<(string, string)>, Option<(string, string)>, nat, nat)
  {
    var a := AttemptSpec(llm, tool, 0, 0, cursorOk, repo, openRaises);
    if a.executed.Some? then
      ([("user", prompt)] + a.msgs + [("assistant", a.reply)], a.executed, a.llmCalls, a.toolCalls)
    else
      var b := AttemptSpec(llm, tool, a.llmCalls, a.toolCalls, cursorOk, repo, openRaises);
      ([("user", prompt)] + a.msgs + b.msgs + (if b.executed.Some? then [("assistant", b.reply)] else []),
       b.executed, b.llmCalls, b.toolCalls)
  }

  /** An attempt reads one reply, or two when some tool call returned a
      result; every message it adds is a tool result; it executes a command
      exactly when the last reply's first command exists and succeeds. */
  lemma AttemptSpecProps(llm: nat -> string, tool: nat -> Option<string>, l: nat, t: nat,
                         cursorOk: bool, repo: map<string, string>, openRaises: bool)
    ensures var a := AttemptSpec(llm, tool, l, t, cursorOk, repo, openRaises);
      && l + 1 <= a.llmCalls <= l + 2 && t <= a.toolCalls <= t + 3
      && a.reply == Strip(llm(a.llmCalls - 1))
      && (a.llmCalls == l + 2 <==> exists c: nat :: t <= c < a.toolCalls && tool(c).Some?)
      && |a.msgs| <= a.toolCalls - t
      && (forall k :: 0 <= k < |a.msgs| ==> IsToolResult(a.msgs[k]))
      && (a.executed.Some? <==> Succeeds(a.reply, cursorOk, repo, openRaises))
      && (a.executed.Some? ==> a.executed.value == Named(Parse(a.reply), Cmds)[0])
    ensures FirstReplySucceeds(llm(l), cursorOk, repo, openRaises) ==>
      var a := AttemptSpec(llm, tool, l, t, cursorOk, repo, openRaises);
      a.executed.Some? && a.llmCalls == l + 1 && a.reply == Strip(llm(l))
  {
    ToolMsgsProps(ToolsOf(Strip(llm(l))), tool, t);
  }

  /** `command_mode` records the prompt first; it makes at most four LLM
      calls and six tool calls; everything between the prompt and a final
      assistant message is a tool result; it fails exactly when neither
      attempt's last reply has a first command that succeeds, and then
      both attempts ran; a success records the reply whose first command
      was executed. */
  lemma CommandModeProps(prompt: string, llm: nat -> string, tool: nat -> Option<string>,
                         cursorOk: bool, repo: map<string, string>, openRaises: bool)
    ensures var r := CommandModeSpec(prompt, llm, tool, cursorOk, repo, openRaises);
      && |r.0| >= 1 && r.0[0] == ("user", prompt)
      && 1 <= r.2 <= 4 && r.3 <= 6
      && (r.1.None? ==> r.2 >= 2)
      && (forall k :: 1 <= k < |r.0| - 1 ==> IsToolResult(r.0[k]))
      && (r.1.None? ==> forall k :: 1 <= k < |r.0| ==> IsToolResult(r.0[k]))
    ensures var r := CommandModeSpec(prompt, llm, tool, cursorOk, repo, openRaises);
      r.1.Some? ==>
        && |r.0| >= 2 && r.0[|r.0| - 1].0 == "assistant"
        && Named(Parse(r.0[|r.0| - 1].1), Cmds) != []
        && r.1.value == Named(Parse(r.0[|r.0| - 1].1), Cmds)[0]
        && ExecCmd(r.1.value.0, r.1.value.1, cursorOk, repo, openRaises).0
    ensures var r := CommandModeSpec(prompt, llm, tool, cursorOk, repo, openRaises);
      var a := AttemptSpec(llm, tool, 0, 0, cursorOk, repo, openRaises);
      r.1.None? <==>
        && !Succeeds(a.reply, cursorOk, repo, openRaises)
        && !Succeeds(AttemptSpec(llm, tool, a.llmCalls, a.toolCalls, cursorOk, repo, openRaises).reply, cursorOk, repo, openRaises)
    ensures FirstReplySucceeds(llm(0), cursorOk, repo, openRaises) ==>
      var r := CommandModeSpec(prompt, llm, tool, cursorOk, repo, openRaises);
      r.1 == Some(Named(Parse(Strip(llm(0))), Cmds)[0]) && r.2 == 1
  {
    var a := AttemptSpec(llm, tool, 0, 0, cursorOk, repo, openRaises);
    AttemptSpecProps(llm, tool, 0, 0, cursorOk, repo, openRaises);
    AttemptSpecProps(llm, tool, a.llmCalls, a.toolCalls, cursorOk, repo, openRaises);
  }

  /** The tool loop: each tool runs once, in order; every result that is
      not `None` is added to the history as a user message, and `toolExec`
      says whether there was one. */
  method RunTools(toolsToRun: seq<(string, string)>, tool: nat -> Option<string>, toolCalls0: nat)
    returns (msgs: seq<(string, string)>, toolExec: bool, toolCalls: nat)
    ensures msgs == ToolMsgs(toolsToRun, tool, toolCalls0)
    ensures toolCalls == toolCalls0 + |toolsToRun|
    ensures toolExec <==> exists c: nat :: toolCalls0 <= c < toolCalls && tool(c).Some?
    ensures toolExec <==> msgs != []
    ensures |msgs| <= |toolsToRun|
    ensures forall k :: 0 <= k < |msgs| ==> IsToolResult(msgs[k])
  {
    msgs, toolExec, toolCalls := [], false, toolCalls0;
    var i := 0;
    while i < |toolsToRun|
      invariant 0 <= i <= |toolsToRun|
      invariant toolCalls == toolCalls0 + i
      invariant msgs == ToolMsgs(toolsToRun[..i], tool, toolCalls0)
      invariant toolExec <==> msgs != []
    {
      var res := tool(toolCalls);
      toolCalls := toolCalls + 1;
      assert toolsToRun[..i + 1][..i] == toolsToRun[..i];
      if res.Some? {
        msgs := msgs + [ToolMsg(toolsToRun[i].0, res.value)];
        toolExec := true;
      }
      i := i + 1;
    }
    assert toolsToRun[..i] == toolsToRun;
    ToolMsgsProps(toolsToRun, tool, toolCalls0);
  }

  /** One attempt of the retry loop, starting with LLM call `llmCalls0`.
      `executed` is the command run successfully, if any, and `reply` the
      last reply read. */
  method Attempt(llm: nat -> string, tool: nat -> Option<string>, llmCalls0: nat, toolCalls0: nat,
                 cursorOk: bool, repo: map<string, string>, openRaises: bool)
    returns (msgs: seq<(string, string)>, reply: string, executed: Option<(string, string)>, llmCalls: nat, toolCalls: nat)
    ensures Round(msgs, reply, executed, llmCalls, toolCalls)
      == AttemptSpec(llm, tool, llmCalls0, toolCalls0, cursorOk, repo, openRaises)
    ensures toolCalls <= toolCalls0 + 3 && llmCalls0 + 1 <= llmCalls <= llmCalls0 + 2
    ensures llmCalls == llmCalls0 + 2 <==> exists c: nat :: toolCalls0 <= c < toolCalls && tool(c).Some?
    ensures reply == Strip(llm(llmCalls - 1))
    ensures executed.Some? <==> Succeeds(reply, cursorOk, repo, openRaises)
    ensures executed.Some? ==> executed.value == Named(Parse(reply), Cmds)[0]
    ensures forall k :: 0 <= k < |msgs| ==> IsToolResult(msgs[k])
    ensures FirstReplySucceeds(llm(llmCalls0), cursorOk, repo, openRaises) ==>
      executed.Some? && llmCalls == llmCalls0 + 1 && reply == Strip(llm(llmCalls0))
  {
    AttemptSpecProps(llm, tool, llmCalls0, toolCalls0, cursorOk, repo, openRaises);
    msgs, executed, toolCalls := [], None, toolCalls0;
    reply := Strip(llm(llmCalls0));
    llmCalls := llmCalls0 + 1;
    var calls := Parse(reply);
    if calls == [] {
      ToolMsgsProps([], tool, toolCalls0);
      return;
    }
    var named := Named(calls, Tools);
    var toolExec;
    msgs, toolExec, toolCalls := RunTools(named[..Min(3, |named|)], tool, toolCalls0);
    assert named[..Min(3, |named|)] == ToolsOf(reply);
    var cmds := Named(calls, Cmds);
    if toolExec {
      reply := Strip(llm(llmCalls));
      llmCalls := llmCalls + 1;
      cmds := Named(Parse(reply), Cmds);
    }
    if cmds == [] {
      return;
    }
    if ExecCmd(cmds[0].0, cmds[0].1, cursorOk, repo, openRaises).0 {
      executed := Some(cmds[0]);
    }
  }

  /** `command_mode(prompt)`: the prompt is recorded, then at most two
      attempts are made; a successful command records the reply as the
      assistant's message and ends the loop. Returns the messages added to
      the history, the command executed successfully (if any) and the
      numbers of LLM and tool calls. The second attempt starts where the
      first one's LLM and tool calls end. */
  method CommandModeLoop(prompt: string, llm: nat -> string, tool: nat -> Option<string>,
                         cursorOk: bool, repo: map<string, string>, openRaises: bool)
    returns (added: seq<(string, string)>, executed: Option<(string, string)>, llmCalls: nat, toolCalls: nat)
    ensures (added, executed, llmCalls, toolCalls) == CommandModeSpec(prompt, llm, tool, cursorOk, repo, openRaises)
    ensures var a := AttemptSpec(llm, tool, 0, 0, cursorOk, repo, openRaises);
      executed.None? <==>
        && !Succeeds(a.reply, cursorOk, repo, openRaises)
        && !Succeeds(AttemptSpec(llm, tool, a.llmCalls, a.toolCalls, cursorOk, repo, openRaises).reply, cursorOk, repo, openRaises)
  {
    ghost var a := AttemptSpec(llm, tool, 0, 0, cursorOk, repo, openRaises);
    ghost var b := AttemptSpec(llm, tool, a.llmCalls, a.toolCalls, cursorOk, repo, openRaises);
    added := [("user", prompt)];
    executed := None;
    llmCalls, toolCalls := 0, 0;
    for retry := 0 to 2
      invariant executed.None?
      invariant retry == 0 ==> llmCalls == 0 && toolCalls == 0 && added == [("user", prompt)]
      invariant retry >= 1 ==> a.executed.None?
      invariant retry == 1 ==> llmCalls == a.llmCalls && toolCalls == a.toolCalls && added == [("user", prompt)] + a.msgs
      invariant retry == 2 ==> b.executed.None? && llmCalls == b.llmCalls && toolCalls == b.toolCalls
      invariant retry == 2 ==> added == [("user", prompt)] + a.msgs + b.msgs
    {
      var msgs, reply, done;
      msgs, reply, done, llmCalls, toolCalls := Attempt(llm, tool, llmCalls, toolCalls, cursorOk, repo, openRaises);
      added := added + msgs;
      if done.Some? {
        added := added + [("assistant", reply)];
        executed := done;
        return;
      }
    }
    assert added == [("user", prompt)] + a.msgs + b.msgs + [];
  }
}
