/** Helpers shared by the modules of this model: an Option type, the handful of
    Python `str` operations the source relies on (`strip`, `lower`, `in`,
    `startswith`, `replace`, `split`, `join`), and sequence helpers for the
    byte/sample buffers (concatenation of chunks, last-k suffix, clipping). */
module Common {

  datatype Option<T> = None | Some(value: T)

  // ---------------------------------------------------------------------------
  // Characters and strings

  /** Python's `str.isspace` restricted to the ASCII range (plus the two
      separators Python counts there: U+001C..U+001F). */
  predicate IsSpace(c: char) {
    c == ' ' || c == '\t' || c == '\n' || c == '\r' || c == '\U{000B}' || c == '\U{000C}'
    || ('\U{001C}' <= c <= '\U{001F}')
  }

  predicate AllSpace(s: string) {
    forall i :: 0 <= i < |s| ==> IsSpace(s[i])
  }

  function LStrip(s: string): string {
    if s != [] && IsSpace(s[0]) then LStrip(s[1..]) else s
  }

  function RStrip(s: string): string {
    if s != [] && IsSpace(s[|s| - 1]) then RStrip(s[..|s| - 1]) else s
  }

  /** `lstrip` removes a run of whitespace from the front and nothing else. */
  lemma {:induction false} LStripSuffix(s: string)
    ensures |LStrip(s)| <= |s| && LStrip(s) == s[|s| - |LStrip(s)|..]
    ensures AllSpace(s[..|s| - |LStrip(s)|])
    ensures LStrip(s) != [] ==> !IsSpace(LStrip(s)[0])
  {
    if s != [] && IsSpace(s[0]) {
      LStripSuffix(s[1..]);
      var t := LStrip(s[1..]);
      assert s[1..][..|s| - 1 - |t|] == s[1..|s| - |t|];
    }
  }

  /** `rstrip` removes a run of whitespace from the back and nothing else. */
  lemma {:induction false} RStripPrefix(s: string)
    ensures |RStrip(s)| <= |s| && RStrip(s) == s[..|RStrip(s)|]
    ensures AllSpace(s[|RStrip(s)|..])
    ensures RStrip(s) != [] ==> !IsSpace(RStrip(s)[|RStrip(s)| - 1])
  {
    if s != [] && IsSpace(s[|s| - 1]) {
      RStripPrefix(s[..|s| - 1]);
      var t := RStrip(s[..|s| - 1]);
      assert s[|t|..] == s[..|s| - 1][|t|..] + [s[|s| - 1]];
    }
  }

  /** Python `s.strip()`: leading and trailing whitespace removed. */
  function Strip(s: string): (r: string)
    ensures |r| <= |s|
    ensures r == [] <==> AllSpace(s)
    ensures r != [] ==> !IsSpace(r[0]) && !IsSpace(r[|r| - 1])
  {
    LStripSuffix(s);
    RStripPrefix(LStrip(s));
    StripEmpty(s);
    RStrip(LStrip(s))
  }

  lemma StripEmpty(s: string)
    ensures RStrip(LStrip(s)) == [] <==> AllSpace(s)
  {
    LStripSuffix(s);
    var l := LStrip(s);
    RStripPrefix(l);
    var d := |s| - |l|;
    if RStrip(l) == [] {
      assert l[0..] == l;
      forall k | 0 <= k < |s| ensures IsSpace(s[k]) {
        assert s[k] == s[..d][k];
      }
    }
  }

  /** Lowercasing as `str.lower()` does it for ASCII letters. */
  function LowerChar(c: char): char {
    if 'A' <= c <= 'Z' then (c as int + 32) as char else c
  }

  function Lower(s: string): (r: string)
    ensures |r| == |s|
    ensures forall i :: 0 <= i < |s| ==> r[i] == LowerChar(s[i])
  {
    if s == [] then [] else [LowerChar(s[0])] + Lower(s[1..])
  }

  predicate IsPrefix<T(==)>(p: seq<T>, s: seq<T>) {
    |p| <= |s| && s[..|p|] == p
  }

  /** Python `sub in s` for strings: `sub` occurs as a contiguous infix. */
  predicate Contains<T(==)>(s: seq<T>, sub: seq<T>)
    decreases |s|
  {
    IsPrefix(sub, s) || (s != [] && Contains(s[1..], sub))
  }

  /** Python `s.replace(pat, rep)` for a non-empty `pat`: non-overlapping
      occurrences, scanned from the left, are replaced. */
  function Replace(s: string, pat: string, rep: string): (r: string)
    requires pat != []
    decreases |s|
  {
    if |s| < |pat| then s
    else if IsPrefix(pat, s) then rep + Replace(s[|pat|..], pat, rep)
    else [s[0]] + Replace(s[1..], pat, rep)
  }

  lemma {:induction false} ReplaceAbsent(s: string, pat: string, rep: string)
    requires pat != []
    requires !Contains(s, pat)
    ensures Replace(s, pat, rep) == s
    decreases |s|
  {
    if |s| >= |pat| {
      ReplaceAbsent(s[1..], pat, rep);
    }
  }

  /** Laid at offset `i` of `x`, `pat` disagrees with `x` somewhere inside
      `x`: no occurrence of `pat` starts at `i`, whatever follows `x`. */
  predicate MismatchAt(x: string, pat: string, i: nat) {
    exists k :: 0 <= k < |pat| && i + k < |x| && x[i + k] != pat[k]
  }

  /** No occurrence of `pat` starts inside `x`, whatever follows it. */
  predicate Clear(x: string, pat: string) {
    forall i :: 0 <= i < |x| ==> MismatchAt(x, pat, i)
  }

  /** A string without the first character of `pat` is clear of it. */
  lemma ClearOfHead(x: string, pat: string)
    requires pat != [] && pat[0] !in x
    ensures Clear(x, pat)
  {
    forall i | 0 <= i < |x|
      ensures MismatchAt(x, pat, i)
    {
      assert x[i + 0] != pat[0];
    }
  }

  /** Two clear strings make a clear string. */
  lemma ClearConcat(x: string, y: string, pat: string)
    requires Clear(x, pat) && Clear(y, pat)
    ensures Clear(x + y, pat)
  {
    var s := x + y;
    forall i | 0 <= i < |s|
      ensures MismatchAt(s, pat, i)
    {
      if i < |x| {
        assert MismatchAt(x, pat, i);
        var k :| 0 <= k < |pat| && i + k < |x| && x[i + k] != pat[k];
        assert s[i + k] == x[i + k];
      } else {
        assert MismatchAt(y, pat, i - |x|);
        var k :| 0 <= k < |pat| && i - |x| + k < |y| && y[i - |x| + k] != pat[k];
        assert s[i + k] == y[i - |x| + k];
      }
    }
  }

  /** `replace` copies a clear prefix unchanged and carries on after it. */
  lemma {:induction false} ReplaceSkip(x: string, y: string, pat: string, rep: string)
    requires pat != [] && Clear(x, pat)
    ensures Replace(x + y, pat, rep) == x + Replace(y, pat, rep)
    decreases |x|
  {
    var s := x + y;
    if x == [] {
      assert s == y;
    } else {
      assert MismatchAt(x, pat, 0);
      var k :| 0 <= k < |pat| && k < |x| && x[k] != pat[k];
      assert s[k] == x[k];
      forall i | 0 <= i < |x| - 1
        ensures MismatchAt(x[1..], pat, i)
      {
        assert MismatchAt(x, pat, i + 1);
        var j :| 0 <= j < |pat| && i + 1 + j < |x| && x[i + 1 + j] != pat[j];
        assert x[1..][i + j] == x[i + 1 + j];
      }
      ReplaceSkip(x[1..], y, pat, rep);
      var t := x[1..];
      assert s[1..] == t + y;
      if |s| >= |pat| {
        assert !IsPrefix(pat, s);
        var r := Replace(y, pat, rep);
        assert Replace(s, pat, rep) == [s[0]] + (t + r);
        assert [s[0]] + (t + r) == ([s[0]] + t) + r;
        assert [s[0]] + t == x;
      } else {
        assert Replace(y, pat, rep) == y;
      }
    }
  }

  /** A clear string is left as it is. */
  lemma ReplaceClear(x: string, pat: string, rep: string)
    requires pat != [] && Clear(x, pat)
    ensures Replace(x, pat, rep) == x
  {
    ReplaceSkip(x, [], pat, rep);
    assert x + [] == x;
  }

  /** An occurrence at the front is replaced and the scan goes on after it. */
  lemma ReplaceFront(y: string, pat: string, rep: string)
    requires pat != []
    ensures Replace(pat + y, pat, rep) == rep + Replace(y, pat, rep)
  {
    var s := pat + y;
    assert IsPrefix(pat, s) && s[|pat|..] == y;
  }

  /** A single occurrence between clear strings is the one replaced. */
  lemma ReplaceOne(pre: string, pat: string, post: string, rep: string)
    requires pat != [] && Clear(pre, pat) && Clear(post, pat)
    ensures Replace(pre + pat + post, pat, rep) == pre + rep + post
  {
    assert pre + pat + post == pre + (pat + post);
    ReplaceSkip(pre, pat + post, pat, rep);
    ReplaceFront(post, pat, rep);
    ReplaceClear(post, pat, rep);
    assert pre + (rep + post) == pre + rep + post;
  }

  /** Python `s.split(c)` for a one-character separator: never empty, no part
      contains the separator. */
  function Split(s: string, c: char): (r: seq<string>)
    ensures |r| >= 1
    ensures forall i :: 0 <= i < |r| ==> c !in r[i]
  {
    if s == [] then [""]
    else
      var rest := Split(s[1..], c);
      if s[0] == c then [""] + rest
      else [[s[0]] + rest[0]] + rest[1..]
  }

  /** Python `sep.join(parts)`. */
  function Join(parts: seq<string>, sep: string): string {
    if parts == [] then ""
    else if |parts| == 1 then parts[0]
    else parts[0] + sep + Join(parts[1..], sep)
  }

  /** `sep.join(s.split(sep))` gives back `s`. */
  lemma {:induction false} JoinSplit(s: string, c: char)
    ensures Join(Split(s, c), [c]) == s
  {
    if s != [] {
      JoinSplit(s[1..], c);
      var rest := Split(s[1..], c);
      if s[0] != c && |rest| > 1 {
        assert Join([[s[0]] + rest[0]] + rest[1..], [c]) == [s[0]] + rest[0] + [c] + Join(rest[1..], [c]);
      }
    }
  }

  /** Splitting at a separator splits each side independently. */
  lemma {:induction false} SplitConcat(a: string, b: string, c: char)
    ensures Split(a + [c] + b, c) == Split(a, c) + Split(b, c)
  {
    if a != [] {
      assert (a + [c] + b)[1..] == a[1..] + [c] + b;
      SplitConcat(a[1..], b, c);
    } else {
      assert a + [c] + b == [c] + b;
    }
  }

  lemma {:induction false} SplitAbsent(s: string, c: char)
    requires c !in s
    ensures Split(s, c) == [s]
  {
    if s != [] {
      assert s[0] != c && c !in s[1..];
      SplitAbsent(s[1..], c);
      assert [s[0]] + s[1..] == s;
    }
  }

  lemma {:induction false} SplitPresent(s: string, c: char)
    requires c in s
    ensures |Split(s, c)| >= 2
  {
    if s[0] != c {
      SplitPresent(s[1..], c);
    }
  }

  /** Splitting a join of separator-free parts gives back the parts. */
  lemma {:induction false} SplitJoin(parts: seq<string>, c: char)
    requires parts != []
    requires forall k :: 0 <= k < |parts| ==> c !in parts[k]
    ensures Split(Join(parts, [c]), c) == parts
  {
    if |parts| == 1 {
      SplitAbsent(parts[0], c);
    } else {
      SplitJoin(parts[1..], c);
      SplitAbsent(parts[0], c);
      SplitConcat(parts[0], Join(parts[1..], [c]), c);
      assert Join(parts, [c]) == parts[0] + [c] + Join(parts[1..], [c]);
      assert parts == [parts[0]] + parts[1..];
    }
  }

  // ---------------------------------------------------------------------------
  // Sequences

  /** `b''.join(chunks)` and `np.concatenate(chunks)`. */
  function Flatten<T>(chunks: seq<seq<T>>): (r: seq<T>)
  {
    if chunks == [] then [] else chunks[0] + Flatten(chunks[1..])
  }

  function TotalLength<T>(chunks: seq<seq<T>>): nat {
    if chunks == [] then 0 else |chunks[0]| + TotalLength(chunks[1..])
  }

  lemma {:induction false} FlattenLength<T>(chunks: seq<seq<T>>)
    ensures |Flatten(chunks)| == TotalLength(chunks)
  {
    if chunks != [] {
      FlattenLength(chunks[1..]);
    }
  }

  lemma {:induction false} FlattenAppend<T>(a: seq<seq<T>>, b: seq<seq<T>>)
    ensures Flatten(a + b) == Flatten(a) + Flatten(b)
  {
    if a == [] {
      assert a + b == b;
    } else {
      assert (a + b)[1..] == a[1..] + b;
      FlattenAppend(a[1..], b);
    }
  }

  /** Python `xs[-k:]` for `k >= 1`; `xs[-0:]` is the whole list, a case the
      callers handle themselves. */
  function LastK<T>(xs: seq<T>, k: nat): (r: seq<T>)
    ensures |r| == if |xs| <= k then |xs| else k
    ensures r == xs[|xs| - |r|..]
  {
    if |xs| <= k then xs else xs[|xs| - k..]
  }

  /** `xs` zero-padded at the end to `n` samples (`np.pad(xs, (0, n - len))`). */
  function PadTo(xs: seq<real>, n: nat): (r: seq<real>)
    requires |xs| <= n
    ensures |r| == n && r[..|xs|] == xs
    ensures forall i :: |xs| <= i < n ==> r[i] == 0.0
  {
    xs + seq(n - |xs|, _ => 0.0)
  }

  /** `np.clip(x, -1.0, 1.0)` on one sample. */
  function Clip(x: real): (r: real)
    ensures -1.0 <= r <= 1.0
    ensures -1.0 <= x <= 1.0 ==> r == x
  {
    if x < -1.0 then -1.0 else if x > 1.0 then 1.0 else x
  }

  function ClipAll(xs: seq<real>): (r: seq<real>)
    ensures |r| == |xs|
    ensures forall i :: 0 <= i < |xs| ==> r[i] == Clip(xs[i])
  {
    seq(|xs|, i requires 0 <= i < |xs| => Clip(xs[i]))
  }

  /** `astype(np.int16)` truncates toward zero. */
  function Trunc(y: real): int {
    if y >= 0.0 then y.Floor else -((-y).Floor)
  }

  /** One sample of `(np.clip(final_audio, -1.0, 1.0) * 32767).astype(np.int16)`:
      within ±32767, with the sign of the clipped sample, and less than one
      unit short of its scaled value. */
  function ToInt16(x: real): (r: int)
    ensures -32767 <= r <= 32767
    ensures var y := Clip(x) * 32767.0;
      && (y >= 0.0 ==> 0 <= r && r as real <= y < r as real + 1.0)
      && (y < 0.0 ==> r <= 0 && r as real - 1.0 < y <= r as real)
  {
    Trunc(Clip(x) * 32767.0)
  }

  function ToInt16All(xs: seq<real>): (r: seq<int>)
    ensures |r| == |xs| && forall i :: 0 <= i < |xs| ==> r[i] == ToInt16(xs[i])
  {
    seq(|xs|, i requires 0 <= i < |xs| => ToInt16(xs[i]))
  }

  function Abs(x: real): real {
    if x < 0.0 then -x else x
  }

  function SumAbs(xs: seq<real>): real {
    if xs == [] then 0.0 else Abs(xs[0]) + SumAbs(xs[1..])
  }

  /** `np.mean(np.abs(x)) > 0.01`. The mean of an empty array is NaN in numpy,
      and NaN > 0.01 is False. */
  predicate EnergyAbove(xs: seq<real>) {
    |xs| > 0 && SumAbs(xs) > (|xs| as real) / 100.0
  }

  function Min(a: int, b: int): int { if a <= b then a else b }
  function Max(a: int, b: int): int { if a >= b then a else b }
}
