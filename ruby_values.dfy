/**
 * Ruby values as `lookup` sees them, and the meaning of walking a path into
 * one: the specification the lookup loop is proved against.
 */
module RubyValues {
  import opened Wrappers
  import opened Stol

  /** A hash key: a String or the interned Symbol of the same name. */
  datatype HKey = Str(s: string) | Sym(name: string)

  /**
   * A Ruby value: nil, an array, a hash, or anything else (a number, a
   * string, true, ...), which `lookup` treats alike and which `Scalar` stands for.
   */
  datatype RValue =
    | Nil
    | Scalar(n: int)
    | Arr(elems: seq<RValue>)
    | Hash(entries: map<HKey, RValue>)

  /** `rb_hash_lookup`: the value stored under `k`, or nil when there is none. */
  function HashLookup(m: map<HKey, RValue>, k: HKey): (r: RValue)
    ensures k !in m ==> r == Nil
    ensures k in m ==> r == m[k]
  {
    if k in m then m[k] else Nil
  }

  /**
   * One pass of the lookup loop's body before its nil check. `None` is an
   * early return from the array branch (no integer, negative, empty array,
   * out of bounds); anything that is neither array nor hash is kept.
   */
  function Step(v: RValue, segment: string): Option<RValue> {
    match v
    case Arr(xs) =>
      (match ParseLong(segment)
       case None => None
       case Some(index) =>
         if index < 0 || |xs| == 0 || index >= |xs| then None else Some(xs[index]))
    case Hash(m) =>
      var result := HashLookup(m, Str(segment));
      Some(if result.Nil? then HashLookup(m, Sym(segment)) else result)
    case _ => Some(v)
  }

  /**
   * The value a path reaches from `v`, or `None` for not-found. The walk
   * ends with not-found as soon as the current value is nil.
   */
  function Navigate(v: RValue, path: seq<string>): (r: Option<RValue>)
    ensures r.Some? && path != [] ==> !r.value.Nil?
    decreases |path|
  {
    if path == [] then Some(v)
    else
      match Step(v, path[0])
      case None => None
      case Some(w) => if w.Nil? then None else Navigate(w, path[1..])
  }

  /**
   * Walking `p + q` is walking `p` and then walking `q` from where `p`
   * ended: looking up `q` below the child that `p` names gives what
   * looking up `p + q` from the root gives.
   */
  lemma {:induction false} NavigateAppend(v: RValue, p: seq<string>, q: seq<string>)
    ensures Navigate(v, p + q) == match Navigate(v, p) case None => None case Some(w) => Navigate(w, q)
    decreases |p|
  {
    if p == [] {
      assert p + q == q;
    } else {
      assert (p + q)[0] == p[0];
      assert (p + q)[1..] == p[1..] + q;
      match Step(v, p[0])
      case None =>
      case Some(w) =>
        if !w.Nil? {
          NavigateAppend(w, p[1..], q);
        }
    }
  }

  /** A value that is neither array, hash nor nil absorbs every remaining segment. */
  lemma {:induction false} ScalarAbsorbs(n: int, path: seq<string>)
    ensures Navigate(Scalar(n), path) == Some(Scalar(n))
    decreases |path|
  {
    if path != [] {
      ScalarAbsorbs(n, path[1..]);
    }
  }

  /** A nil value yields not-found for every non-empty path, and itself for the empty one. */
  lemma NilNotFound(path: seq<string>)
    ensures Navigate(Nil, path) == if path == [] then Some(Nil) else None
  {
  }

  /**
   * On an array, a segment reading as the decimal numeral of an index
   * in bounds, followed by anything that is not a digit, selects that
   * element ("1" and "1x" both select element 1). A Ruby array never
   * holds more than `LongMax` elements, so every index of one is a `long`.
   */
  lemma ArrayIndex(xs: seq<RValue>, k: nat, rest: string, path: seq<string>)
    requires k < |xs| && k <= LongMax
    requires rest == [] || !IsDigit(rest[0])
    ensures Navigate(Arr(xs), [Decimal(k) + rest] + path) ==
              if xs[k].Nil? then None else Navigate(xs[k], path)
  {
    ParseDecimalPrefix(k, rest);
    assert ([Decimal(k) + rest] + path)[0] == Decimal(k) + rest;
    assert ([Decimal(k) + rest] + path)[1..] == path;
  }

  /** On an array, an index at or past the end yields not-found, the empty array included. */
  lemma ArrayOutOfBounds(xs: seq<RValue>, k: nat, rest: string, path: seq<string>)
    requires k >= |xs|
    requires rest == [] || !IsDigit(rest[0])
    ensures Navigate(Arr(xs), [Decimal(k) + rest] + path) == None
  {
    ParseDecimalPrefix(k, rest);
  }

  /** On an array, a negative index yields not-found. */
  lemma ArrayNegative(xs: seq<RValue>, n: nat, path: seq<string>)
    requires n > 0
    ensures Navigate(Arr(xs), [['-'] + Decimal(n)] + path) == None
  {
    ParseNegative(n);
  }

  /** On an array, a segment with no digit in it yields not-found. */
  lemma ArrayNoDigit(xs: seq<RValue>, segment: string, path: seq<string>)
    requires forall j :: 0 <= j < |segment| ==> !IsDigit(segment[j])
    ensures Navigate(Arr(xs), [segment] + path) == None
  {
    NoDigitNoNumber(segment);
  }

  /** On an array, a segment whose first non-blank character is neither a digit nor a sign gives not-found. */
  lemma ArrayNoLeadingInteger(xs: seq<RValue>, w: string, segment: string, path: seq<string>)
    requires forall j :: 0 <= j < |w| ==> IsSpace(w[j])
    requires segment == [] || (!IsSpace(segment[0]) && !IsDigit(segment[0]) && segment[0] != '-' && segment[0] != '+')
    ensures Navigate(Arr(xs), [w + segment] + path) == None
  {
    NoLeadingInteger(w, segment);
  }

  /** On an array, a sign that no digit follows gives not-found. */
  lemma ArraySignWithoutDigit(xs: seq<RValue>, w: string, segment: string, path: seq<string>)
    requires forall j :: 0 <= j < |w| ==> IsSpace(w[j])
    requires |segment| > 0 && (segment[0] == '-' || segment[0] == '+')
    requires |segment| == 1 || !IsDigit(segment[1])
    ensures Navigate(Arr(xs), [w + segment] + path) == None
  {
    SignWithoutDigit(w, segment);
  }

  /**
   * On a hash, a non-nil value under the String key wins; otherwise the
   * value under the Symbol key is taken, and a nil one ends the walk.
   */
  lemma HashSegment(m: map<HKey, RValue>, segment: string, path: seq<string>)
    ensures Str(segment) in m && !m[Str(segment)].Nil? ==>
              Navigate(Hash(m), [segment] + path) == Navigate(m[Str(segment)], path)
    ensures (Str(segment) !in m || m[Str(segment)].Nil?) ==>
              Navigate(Hash(m), [segment] + path) ==
                if Sym(segment) in m && !m[Sym(segment)].Nil? then Navigate(m[Sym(segment)], path) else None
  {
    assert ([segment] + path)[0] == segment;
    assert ([segment] + path)[1..] == path;
  }

  /** The array of 10, 20, 30: "1" gives 20, "5" is out of bounds. */
  lemma ArrayExample()
    ensures Navigate(Arr([Scalar(10), Scalar(20), Scalar(30)]), ["1"]) == Some(Scalar(20))
    ensures Navigate(Arr([Scalar(10), Scalar(20), Scalar(30)]), ["5"]) == None
  {
    ArrayIndex([Scalar(10), Scalar(20), Scalar(30)], 1, "", []);
    ArrayOutOfBounds([Scalar(10), Scalar(20), Scalar(30)], 5, "", []);
    assert Decimal(1) == "1" && Decimal(5) == "5";
  }

  /** A key present only as a Symbol is still found through the fallback. */
  lemma SymbolExample()
    ensures Navigate(Hash(map[Str("foo") := Scalar(1)]), ["foo"]) == Some(Scalar(1))
    ensures Navigate(Hash(map[Sym("foo") := Scalar(1)]), ["foo"]) == Some(Scalar(1))
  {
    HashSegment(map[Str("foo") := Scalar(1)], "foo", []);
    HashSegment(map[Sym("foo") := Scalar(1)], "foo", []);
    assert ["foo"] == ["foo"] + [];
  }
}
