/** `core/llm_rewriter.py`: the dictation rewriter. A rewrite request is
    answered from a bounded cache keyed by `mode:text`, or by asking the LLM
    and keeping the content of its `<correct>` block. When an insertion
    takes the cache past 100 entries, the 50 oldest-inserted ones are
    dropped.

    The LLM reply is a parameter: `None` stands for any exception raised in
    the request block (prompt file, network, a reply without content). The
    configuration file is reduced to the `enabled` flag and whether a client
    was built. */
module LlmRewriter {
  import opened Common
  import CommandMode

  const CacheLimit: nat := 100
  const EvictCount: nat := 50
  const DictationMode: string := "dictation"

  /** The cache key `f"{mode}:{text}"`. */
  function CacheKey(mode: string, text: string): string {
    mode + ":" + text
  }

  /** In dictation mode distinct texts never share a cache entry. */
  lemma CacheKeyInjective(a: string, b: string)
    requires CacheKey(DictationMode, a) == CacheKey(DictationMode, b)
    ensures a == b
  {
    var n := |DictationMode| + 1;
    assert a == CacheKey(DictationMode, a)[n..];
    assert b == CacheKey(DictationMode, b)[n..];
  }

  /** The rewritten text for an LLM reply: the stripped content of the
      first `<correct>` block of the stripped reply, else the stripped
      reply. */
  function Extract(reply: string): string {
    var raw := Strip(reply);
    match CommandMode.SearchTag("correct", raw) {
      case Some(c) => c
      case None => raw
    }
  }

  /** A reply without a `<correct>` block is kept whole, stripped. */
  lemma ExtractPlain(reply: string)
    requires !Contains(Strip(reply), CommandMode.OpenTag("correct"))
    ensures Extract(reply) == Strip(reply)
  {
    CommandMode.SearchTagAbsent("correct", Strip(reply));
  }

  /** A reply that starts with a `<correct>` block gives that block's
      stripped content. */
  lemma ExtractTagged(content: string, rest: string)
    requires CommandMode.NoEarlyClose(content, "correct")
    requires Strip(CommandMode.Tagged("correct", content) + rest) == CommandMode.Tagged("correct", content) + rest
    ensures Extract(CommandMode.Tagged("correct", content) + rest) == Strip(content)
  {
    CommandMode.SearchTagTagged("correct", content, rest);
  }

  predicate Distinct(s: seq<string>) {
    forall i, j :: 0 <= i < j < |s| ==> s[i] != s[j]
  }

  /** The cache's keys are exactly `order`, each once, oldest first, and
      there are at most 100 of them. */
  ghost predicate Indexed(cache: map<string, string>, order: seq<string>) {
    && |order| <= CacheLimit
    && Distinct(order)
    && (forall k :: k in cache <==> k in order)
  }

  lemma {:induction false} DistinctCard(s: seq<string>)
    requires Distinct(s)
    ensures |set k | k in s| == |s|
  {
    if s != [] {
      var init := s[..|s| - 1];
      DistinctCard(init);
      assert (set k | k in s) == (set k | k in init) + {s[|s| - 1]};
      assert s[|s| - 1] !in init;
    }
  }

  /** The cache never holds more than 100 entries. */
  lemma IndexedSize(cache: map<string, string>, order: seq<string>)
    requires Indexed(cache, order)
    ensures |cache| == |order| <= CacheLimit
  {
    DistinctCard(order);
    assert cache.Keys == set k | k in order;
  }

  /** The insertion order after adding `key`: the 50 oldest go when the
      cache would exceed 100 entries. */
  function Inserted(order: seq<string>, key: string): seq<string> {
    var o := order + [key];
    if |o| > CacheLimit then o[EvictCount..] else o
  }

  /** The new key survives the eviction, and the order stays within bounds
      and duplicate-free. */
  lemma InsertedProps(order: seq<string>, key: string)
    requires |order| <= CacheLimit && Distinct(order) && key !in order
    ensures var o := Inserted(order, key);
      && |o| <= CacheLimit && Distinct(o) && o[|o| - 1] == key
      && (forall k :: k in o ==> k == key || k in order)
  {
    var o := order + [key];
    assert Distinct(o);
    if |o| > CacheLimit {
      assert o[EvictCount..][|o| - EvictCount - 1] == key;
    }
  }

  class Rewriter {
    const enabled: bool
    const hasClient: bool
    var cache: map<string, string>
    /** The cache's keys in insertion order, as a Python dict keeps them. */
    var order: seq<string>
    /** How many times the LLM request block was entered. */
    var llmCalls: nat

    ghost predicate Valid()
      reads this
    {
      Indexed(cache, order)
    }

    constructor (enabled: bool, hasClient: bool)
      ensures Valid()
      ensures this.enabled == enabled && this.hasClient == hasClient
      ensures cache == map[] && order == [] && llmCalls == 0
    {
      this.enabled := enabled;
      this.hasClient := hasClient;
      cache := map[];
      order := [];
      llmCalls := 0;
    }

    /** The eviction loop: the first 50 keys in insertion order are
        deleted; the other entries keep their values. */
    method EvictOldest()
      requires |order| > EvictCount && Distinct(order)
      requires forall k :: k in cache <==> k in order
      modifies this
      ensures order == old(order)[EvictCount..]
      ensures forall k :: k in cache <==> k in order
      ensures forall k :: k in cache ==> k in old(cache) && cache[k] == old(cache)[k]
      ensures llmCalls == old(llmCalls)
    {
      var i := 0;
      while i < EvictCount
        invariant 0 <= i <= EvictCount
        invariant order == old(order) && llmCalls == old(llmCalls)
        invariant forall k :: k in cache <==> k in order[i..]
        invariant forall k :: k in cache ==> k in old(cache) && cache[k] == old(cache)[k]
      {
        var gone := order[i];
        forall k
          ensures k in order[i..] && k != gone <==> k in order[i + 1..]
        {
          if k in order[i + 1..] {
            var j :| i + 1 <= j < |order| && order[j] == k;
            assert order[i] != order[j];
          }
        }
        cache := cache - {gone};
        i := i + 1;
      }
      order := order[EvictCount..];
    }

    /** `rewrite`: the input comes back unchanged when disabled, without a
        client, outside dictation mode, or when the request raises (and
        nothing is cached then); a cache hit answers without the LLM;
        otherwise the extracted reply is cached under `mode:text`, evicting
        the oldest half when the cache grows past 100 entries. */
    method Rewrite(text: string, mode: string, reply: Option<string>) returns (r: string)
      requires Valid()
      modifies this
      ensures Valid()
      ensures !enabled || !hasClient || mode != DictationMode ==> r == text && unchanged(this)
      ensures enabled && hasClient && mode == DictationMode && CacheKey(mode, text) in old(cache) ==>
        r == old(cache)[CacheKey(mode, text)] && unchanged(this)
      ensures enabled && hasClient && mode == DictationMode && CacheKey(mode, text) !in old(cache) ==>
        && llmCalls == old(llmCalls) + 1
        && (reply.None? ==> r == text && cache == old(cache) && order == old(order))
        && (reply.Some? ==>
            && r == Extract(reply.value)
            && order == Inserted(old(order), CacheKey(mode, text))
            && CacheKey(mode, text) in cache && cache[CacheKey(mode, text)] == r
            && (forall k :: k in cache && k != CacheKey(mode, text) ==> k in old(cache) && cache[k] == old(cache)[k]))
    {
      if !enabled || !hasClient {
        return text;
      }
      if mode != DictationMode {
        return text;
      }
      var key := CacheKey(mode, text);
      if key in cache {
        return cache[key];
      }
      llmCalls := llmCalls + 1;
      match reply {
        case None =>
          r := text;
        case Some(raw) =>
          r := Extract(raw);
          InsertedProps(order, key);
          cache := cache[key := r];
          order := order + [key];
          assert forall k :: k in cache <==> k in order;
          IndexedSize(old(cache), old(order));
          assert |cache| == |order| by {
            DistinctCard(order);
            assert cache.Keys == set k | k in order;
          }
          if |cache| > CacheLimit {
            EvictOldest();
          }
      }
    }
  }

  /** The module-level singleton slot of `get_rewriter`. */
  class Registry {
    var instance: Option<Rewriter>

    constructor ()
      ensures instance.None?
    {
      instance := None;
    }

    /** `get_rewriter`: the first call builds the rewriter from the
        configuration; every later call returns that same object. */
    method GetRewriter(enabled: bool, hasClient: bool) returns (r: Rewriter)
      modifies this
      ensures instance == Some(r)
      ensures old(instance).Some? ==> r == old(instance).value
      ensures old(instance).None? ==> fresh(r) && r.Valid() && r.cache == map[] && r.enabled == enabled && r.hasClient == hasClient
    {
      match instance {
        case Some(existing) =>
          r := existing;
        case None =>
          r := new Rewriter(enabled, hasClient);
          instance := Some(r);
      }
    }
  }
}
