/**
 * `facter::ruby::lookup`: the walk of a path into a Ruby value, memoised
 * per root in the root's child cache.
 */
module RubyLookup {
  import opened Wrappers
  import opened Stol
  import opened PathKey
  import opened RubyValues

  /**
   * A fact value backed by a Ruby object (`ruby_value`). Its children are
   * the values earlier lookups reached, kept under their cache keys.
   */
  class RubyValue {
    const value: RValue
    var children: map<string, RValue>

    constructor (v: RValue)
      ensures value == v && children == map[]
      ensures Coherent(children, value)
    {
      value := v;
      children := map[];
    }

    /** `ruby_value::child`: the cached child under `key`, if any. */
    function Child(key: string): (r: Option<RValue>)
      reads this
      ensures r.Some? <==> key in children
      ensures r.Some? ==> r.value == children[key]
    {
      if key in children then Some(children[key]) else None
    }

    /** `ruby_value::wrap_child`: stores `v` under `key` unless a child is already there. */
    method WrapChild(v: RValue, key: string) returns (r: RValue)
      modifies this
      ensures key in old(children) ==> children == old(children) && r == old(children)[key]
      ensures key !in old(children) ==> children == old(children)[key := v] && r == v
    {
      if key !in children {
        children := children[key := v];
      }
      r := children[key];
    }
  }

  /** A fact value handed to `lookup`: a Ruby-backed one, or any other kind. */
  datatype Fact = RubyFact(rv: RubyValue) | NativeFact

  /** What one lookup returns and the cache it leaves behind. */
  datatype Outcome = Outcome(found: Option<RValue>, cache: map<string, RValue>)

  /** The effect of `lookup` on a Ruby root holding `value` and `cache`. */
  function LookupSpec(cache: map<string, RValue>, value: RValue, path: seq<string>): Outcome {
    var key := CacheKey(path);
    if key in cache then Outcome(Some(cache[key]), cache)
    else
      match Navigate(value, path)
      case None => Outcome(None, cache)
      case Some(w) => Outcome(Some(w), cache[key := w])
  }

  /** The lookup loop: walks `path` from `root` one segment at a time. */
  method Traverse(root: RValue, path: seq<string>) returns (r: Option<RValue>)
    ensures r == Navigate(root, path)
  {
    var val := root;
    var i := 0;
    while i < |path|
      invariant 0 <= i <= |path|
      invariant Navigate(root, path) == Navigate(val, path[i..])
      invariant i > 0 ==> !val.Nil?
    {
      var segment := path[i];
      assert path[i..][0] == segment && path[i..][1..] == path[i + 1..];
      if val.Arr? {
        var index := ParseLong(segment);
        if index.None? {
          return None;
        }
        if index.value < 0 {
          return None;
        }
        var length := |val.elems|;
        if length == 0 {
          return None;
        }
        if index.value >= length {
          return None;
        }
        val := val.elems[index.value];
      } else if val.Hash? {
        var result := HashLookup(val.entries, Str(segment));
        if result.Nil? {
          result := HashLookup(val.entries, Sym(segment));
        }
        val := result;
      } else {
        // neither array nor hash: the segment is consumed and val is kept
      }
      if val.Nil? {
        return None;
      }
      i := i + 1;
    }
    return Some(val);
  }

  /**
   * `lookup(value, segment, end)`: not-found for a value that is not
   * Ruby-backed; a cached child when the key is present; otherwise the
   * walk, whose non-nil result is cached under the key.
   */
  method Lookup(fact: Fact, path: seq<string>) returns (r: Option<RValue>)
    modifies if fact.RubyFact? then {fact.rv} else {}
    ensures fact.NativeFact? ==> r == None
    ensures fact.RubyFact? ==>
              Outcome(r, fact.rv.children) == LookupSpec(old(fact.rv.children), fact.rv.value, path)
    ensures fact.RubyFact? && QuoteFree(path) && old(Coherent(fact.rv.children, fact.rv.value)) ==>
              Coherent(fact.rv.children, fact.rv.value)
  {
    if fact.NativeFact? {
      return None;
    }
    var root := fact.rv;
    var key := CacheKey(path);
    var childValue := root.Child(key);
    if childValue.Some? {
      return childValue;
    }
    var val := Traverse(root.value, path);
    if val.None? {
      return None;
    }
    ghost var before := root.children;
    var child := root.WrapChild(val.value, key);
    if QuoteFree(path) && Coherent(before, root.value) {
      LookupKeepsCoherent(before, root.value, path);
    }
    return Some(child);
  }

  /**
   * A hit returns the cached child and leaves the cache alone; a miss that
   * fails adds nothing; a miss that succeeds adds exactly the entry for the
   * path's key.
   */
  lemma LookupCacheEffect(cache: map<string, RValue>, value: RValue, path: seq<string>)
    ensures var o := LookupSpec(cache, value, path);
      (CacheKey(path) in cache ==> o.found == Some(cache[CacheKey(path)]) && o.cache == cache) &&
      (o.found.None? ==> o.cache == cache) &&
      (CacheKey(path) !in cache && o.found.Some? ==>
         o.cache.Keys == cache.Keys + {CacheKey(path)} && o.cache[CacheKey(path)] == o.found.value &&
         forall k :: k in cache ==> o.cache[k] == cache[k])
  {
  }

  /** Looking a path up twice gives the same answer, and the second time changes nothing. */
  lemma LookupTwice(cache: map<string, RValue>, value: RValue, path: seq<string>)
    ensures var first := LookupSpec(cache, value, path);
      var second := LookupSpec(first.cache, value, path);
      second.found == first.found && second.cache == first.cache
  {
  }

  /**
   * The cache agrees with the walk: every entry whose key is that of a
   * quote-free path holds what walking that path from the root gives.
   */
  ghost predicate Coherent(cache: map<string, RValue>, value: RValue) {
    forall p :: QuoteFree(p) && CacheKey(p) in cache ==> Navigate(value, p) == Some(cache[CacheKey(p)])
  }

  /** An empty cache, the one a root starts with, is coherent. */
  lemma EmptyCacheCoherent(value: RValue)
    ensures Coherent(map[], value)
  {
  }

  /**
   * A lookup of a quote-free path keeps the cache coherent, so a root stays
   * coherent for as long as every path looked up on it is quote-free.
   */
  lemma LookupKeepsCoherent(cache: map<string, RValue>, value: RValue, path: seq<string>)
    requires Coherent(cache, value) && QuoteFree(path)
    ensures Coherent(LookupSpec(cache, value, path).cache, value)
  {
    var key := CacheKey(path);
    var c := LookupSpec(cache, value, path).cache;
    forall p | QuoteFree(p) && CacheKey(p) in c
      ensures Navigate(value, p) == Some(c[CacheKey(p)])
    {
      if CacheKey(p) == key && key !in cache {
        KeyInjective(p, path);
      }
    }
  }

  /** On a coherent cache the memo is invisible: a quote-free lookup gives what the walk gives. */
  lemma CoherentLookupIsWalk(cache: map<string, RValue>, value: RValue, path: seq<string>)
    requires Coherent(cache, value) && QuoteFree(path)
    ensures LookupSpec(cache, value, path).found == Navigate(value, path)
  {
  }

  /**
   * With quotes in segments two paths can share a key, and then the memo
   * answers the second with the first one's value: on the hash
   * {"a.b" => 1, "\"a" => {"b\"" => 2}}, looking up ["a.b"] and then
   * ["\"a", "b\""] gives 1 where the walk gives 2.
   */
  lemma CacheCollision()
    ensures var inner := Hash(map[Str("b\"") := Scalar(2)]);
      var root := Hash(map[Str("a.b") := Scalar(1), Str("\"a") := inner]);
      var first := LookupSpec(map[], root, ["a.b"]);
      Navigate(root, ["\"a", "b\""]) == Some(Scalar(2)) &&
      LookupSpec(first.cache, root, ["\"a", "b\""]).found == Some(Scalar(1))
  {
    var inner := Hash(map[Str("b\"") := Scalar(2)]);
    var root := Hash(map[Str("a.b") := Scalar(1), Str("\"a") := inner]);
    KeyCollision();
    HashSegment(root.entries, "a.b", []);
    HashSegment(root.entries, "\"a", ["b\""]);
    HashSegment(inner.entries, "b\"", []);
    assert ["a.b"] == ["a.b"] + [];
    assert ["\"a", "b\""] == ["\"a"] + ["b\""];
    assert ["b\""] == ["b\""] + [];
  }
}
