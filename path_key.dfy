/**
 * The cache key `lookup` builds from its path segments: a left fold from
 * the empty string in which every segment contributes "." followed by the
 * segment, wrapped in double quotes when it contains a dot itself.
 */
module PathKey {
  import opened Wrappers

  /** What one segment adds to the key. */
  function Piece(segment: string): (p: string)
    ensures |p| > 0 && p[0] == '.'
  {
    if '.' in segment then ".\"" + segment + "\"" else "." + segment
  }

  /** The key of a path, folded from the left as `std::accumulate` does. */
  function CacheKey(path: seq<string>): (key: string)
    ensures path == [] <==> key == ""
    ensures path != [] ==> key[0] == '.'
  {
    if path == [] then "" else CacheKey(path[..|path| - 1]) + Piece(path[|path| - 1])
  }

  /** No segment contains a double quote. */
  predicate QuoteFree(path: seq<string>) {
    forall i :: 0 <= i < |path| ==> '"' !in path[i]
  }

  /** The last index below `hi` at which `s` holds `c`. */
  function LastIndex(s: string, c: char, hi: nat): (r: Option<nat>)
    requires hi <= |s|
    ensures r.Some? ==> r.value < hi && s[r.value] == c && forall j :: r.value < j < hi ==> s[j] != c
    ensures r.None? ==> forall j :: 0 <= j < hi ==> s[j] != c
  {
    if hi == 0 then None else if s[hi - 1] == c then Some(hi - 1) else LastIndex(s, c, hi - 1)
  }

  /**
   * Splits the last segment off a key: a key ending in a quote ends in a
   * quoted segment, any other key ends in a plain one.
   */
  function SplitLast(key: string): (r: Option<(string, string)>)
    requires key != []
    ensures r.Some? ==> |r.value.0| < |key|
  {
    if key[|key| - 1] == '"' then
      match LastIndex(key, '"', |key| - 1)
      case None => None
      case Some(q) =>
        if q == 0 || key[q - 1] != '.' then None
        else Some((key[..q - 1], key[q + 1..|key| - 1]))
    else
      match LastIndex(key, '.', |key|)
      case None => None
      case Some(d) => Some((key[..d], key[d + 1..]))
  }

  /** Reads a key back into its segments, from the right. */
  function DecodeKey(key: string): Option<seq<string>>
    decreases |key|
  {
    if key == [] then Some([])
    else
      match SplitLast(key)
      case None => None
      case Some((prefix, last)) =>
        match DecodeKey(prefix)
        case None => None
        case Some(init) => Some(init + [last])
  }

  /** An occurrence of `c` with none after it below `hi` is the one `LastIndex` finds. */
  lemma LastIndexAt(s: string, c: char, hi: nat, q: nat)
    requires q < hi <= |s| && s[q] == c
    requires forall j :: q < j < hi ==> s[j] != c
    ensures LastIndex(s, c, hi) == Some(q)
  {
  }

  lemma SplitAtQuote(key: string, q: nat)
    requires |key| > 0 && key[|key| - 1] == '"' && q < |key| - 1
    requires LastIndex(key, '"', |key| - 1) == Some(q)
    requires q > 0 && key[q - 1] == '.'
    ensures SplitLast(key) == Some((key[..q - 1], key[q + 1..|key| - 1]))
  {
  }

  lemma SplitAtDot(key: string, d: nat)
    requires |key| > 0 && key[|key| - 1] != '"' && d < |key|
    requires LastIndex(key, '.', |key|) == Some(d)
    ensures SplitLast(key) == Some((key[..d], key[d + 1..]))
  {
  }

  /** In a quoted last piece, the opening quote is the last quote before the closing one. */
  lemma QuotedLastQuote(k: string, segment: string)
    requires '"' !in segment
    ensures var key := k + ['.', '"'] + segment + ['"'];
      LastIndex(key, '"', |key| - 1) == Some(|k| + 1)
  {
    var key := k + ['.', '"'] + segment + ['"'];
    var q := |k| + 1;
    assert key[q] == '"';
    forall j | q < j < |key| - 1 ensures key[j] != '"' {
      assert key[j] == segment[j - q - 1];
    }
    LastIndexAt(key, '"', |key| - 1, q);
  }

  lemma QuotedSlices(k: string, segment: string)
    ensures var key := k + ['.', '"'] + segment + ['"'];
      key[|key| - 1] == '"' && key[|k|] == '.' &&
      key[..|k|] == k && key[|k| + 2..|key| - 1] == segment
  {
    var key := k + ['.', '"'] + segment + ['"'];
    assert key[..|k|] == k by {
      assert key == k + (['.', '"'] + segment + ['"']);
    }
    assert key[|k| + 2..|key| - 1] == segment by {
      assert key == (k + ['.', '"']) + segment + ['"'];
    }
  }

  /** A quoted segment at the end of a key is split off intact. */
  lemma SplitQuoted(k: string, segment: string)
    requires '"' !in segment
    ensures SplitLast(k + ['.', '"'] + segment + ['"']) == Some((k, segment))
  {
    QuotedLastQuote(k, segment);
    QuotedSlices(k, segment);
    SplitAtQuote(k + ['.', '"'] + segment + ['"'], |k| + 1);
  }

  /** In a plain last piece, its leading dot is the last dot of the key. */
  lemma PlainLastDot(k: string, segment: string)
    requires '.' !in segment
    ensures var key := k + ['.'] + segment;
      LastIndex(key, '.', |key|) == Some(|k|)
  {
    var key := k + ['.'] + segment;
    assert key[|k|] == '.';
    forall j | |k| < j < |key| ensures key[j] != '.' {
      assert key[j] == segment[j - |k| - 1];
    }
    LastIndexAt(key, '.', |key|, |k|);
  }

  lemma PlainSlices(k: string, segment: string)
    requires '"' !in segment
    ensures var key := k + ['.'] + segment;
      key[|key| - 1] != '"' && key[..|k|] == k && key[|k| + 1..] == segment
  {
    var key := k + ['.'] + segment;
    if segment != [] {
      assert key[|key| - 1] == segment[|segment| - 1];
    }
    assert key[..|k|] == k by {
      assert key == k + (['.'] + segment);
    }
    assert key[|k| + 1..] == segment by {
      assert key == (k + ['.']) + segment;
    }
  }

  /** A plain segment at the end of a key is split off intact. */
  lemma SplitPlain(k: string, segment: string)
    requires '"' !in segment && '.' !in segment
    ensures SplitLast(k + ['.'] + segment) == Some((k, segment))
  {
    PlainLastDot(k, segment);
    PlainSlices(k, segment);
    SplitAtDot(k + ['.'] + segment, |k|);
  }

  /** The last piece of a key is split off intact when its segment holds no quote. */
  lemma SplitPiece(k: string, segment: string)
    requires '"' !in segment
    ensures SplitLast(k + Piece(segment)) == Some((k, segment))
  {
    if '.' in segment {
      assert k + Piece(segment) == k + ['.', '"'] + segment + ['"'];
      SplitQuoted(k, segment);
    } else {
      assert k + Piece(segment) == k + ['.'] + segment;
      SplitPlain(k, segment);
    }
  }

  /** Decoding a key is splitting off its last segment and decoding the rest. */
  lemma DecodeStep(key: string, k: string, last: string)
    requires key != [] && SplitLast(key) == Some((k, last))
    ensures DecodeKey(key) == if DecodeKey(k).None? then None else Some(DecodeKey(k).value + [last])
  {
  }

  lemma LastSplit(path: seq<string>)
    requires path != []
    ensures path == path[..|path| - 1] + [path[|path| - 1]]
  {
  }

  /** The key of a path whose segments hold no double quote determines the path. */
  lemma {:induction false} KeyRoundTrip(path: seq<string>)
    requires QuoteFree(path)
    ensures DecodeKey(CacheKey(path)) == Some(path)
  {
    if path != [] {
      var init, last := path[..|path| - 1], path[|path| - 1];
      assert QuoteFree(init) by {
        forall i | 0 <= i < |init| ensures '"' !in init[i] {
          assert init[i] == path[i];
        }
      }
      assert '"' !in last;
      KeyRoundTrip(init);
      var k := CacheKey(init);
      assert CacheKey(path) == k + Piece(last);
      SplitPiece(k, last);
      DecodeStep(k + Piece(last), k, last);
      LastSplit(path);
    }
  }

  /** Distinct quote-free paths never share a cache key. */
  lemma KeyInjective(p: seq<string>, q: seq<string>)
    requires QuoteFree(p) && QuoteFree(q)
    requires CacheKey(p) == CacheKey(q)
    ensures p == q
  {
    KeyRoundTrip(p);
    KeyRoundTrip(q);
  }

  /** Two segments, the second quoted because it holds a dot. */
  lemma KeyExample()
    ensures CacheKey(["a", "b.c"]) == ".a.\"b.c\""
  {
    assert '.' !in "a";
    assert "b.c"[1] == '.';
  }

  /** Quotes inside segments make the key ambiguous: two different paths, one key. */
  lemma KeyCollision()
    ensures CacheKey(["a.b"]) == CacheKey(["\"a", "b\""])
    ensures ["a.b"] != ["\"a", "b\""]
  {
    assert "a.b"[1] == '.';
    assert Piece("a.b") == ".\"a.b\"";
    assert CacheKey(["a.b"]) == CacheKey([]) + Piece("a.b") by {
      assert ["a.b"][..0] == [];
    }
    assert '.' !in "\"a" by {
      assert forall j :: 0 <= j < |"\"a"| ==> "\"a"[j] != '.';
    }
    assert '.' !in "b\"" by {
      assert forall j :: 0 <= j < |"b\""| ==> "b\""[j] != '.';
    }
    assert CacheKey(["\"a"]) == Piece("\"a") by {
      assert ["\"a"][..0] == [];
    }
    assert CacheKey(["\"a", "b\""]) == CacheKey(["\"a"]) + Piece("b\"") by {
      assert ["\"a", "b\""][..1] == ["\"a"];
    }
  }
}
