/**
 * The order in which JavaScript visits the own properties of a plain object
 * (`for...in`, `Object.keys`): keys that are array indices (canonical
 * decimal numbers below 2^32 - 1) first, in ascending numeric order, then
 * every other key in the order it was first added. Subzone codes such as
 * "771204" are array indices; "000000" is not. Also the names a plain
 * object inherits.
 */
module PropertyOrder {
  import opened JsText
  import opened Seqs

  const IndexLimit := 4294967295

  /**
   * The names every plain object inherits from `Object.prototype`. Reading
   * such a key from an object that does not hold it gives the inherited value
   * (a function, or the prototype itself for `__proto__`), which is truthy.
   */
  const ObjectPrototypeNames: set<string> :=
    {"constructor", "hasOwnProperty", "isPrototypeOf", "propertyIsEnumerable", "toLocaleString",
     "toString", "valueOf", "__proto__", "__defineGetter__", "__defineSetter__",
     "__lookupGetter__", "__lookupSetter__"}

  /** A canonical array index: decimal digits without a leading zero (except "0" itself), below 2^32 - 1. */
  predicate IsArrayIndex(key: string) {
    |key| >= 1 && AllDigits(key) && (|key| == 1 || key[0] != '0') && DigitsValue(key) < IndexLimit
  }

  predicate IsNamedKey(key: string) {
    !IsArrayIndex(key)
  }

  /** The numeric value used to order array-index keys. */
  function KeyValue(key: string): nat {
    if AllDigits(key) then DigitsValue(key) else 0
  }

  predicate Ascending(keys: seq<string>) {
    SortedBy(keys, KeyValue)
  }

  /** The visiting order of an object whose keys were added in the order `insertion`. */
  function OwnKeys(insertion: seq<string>): seq<string> {
    var p: string -> bool := IsArrayIndex;
    var q: string -> bool := IsNamedKey;
    SortBy(Filter(insertion, p), KeyValue) + Filter(insertion, q)
  }

  /**
   * The visiting order holds every key exactly as often as it was added,
   * array-index keys first and ascending, the others after them in
   * insertion order.
   */
  lemma {:induction false} OwnKeysOrder(insertion: seq<string>)
    ensures multiset(OwnKeys(insertion)) == multiset(insertion)
    ensures var n := |Filter(insertion, IsArrayIndex)|;
            && n <= |OwnKeys(insertion)|
            && (forall i :: 0 <= i < n ==> IsArrayIndex(OwnKeys(insertion)[i]))
            && Ascending(OwnKeys(insertion)[..n])
            && OwnKeys(insertion)[n..] == Filter(insertion, IsNamedKey)
  {
    var p: string -> bool := IsArrayIndex;
    var q: string -> bool := IsNamedKey;
    var indices := Filter(insertion, p);
    var sorted := SortBy(indices, KeyValue);
    var named := Filter(insertion, q);
    assert OwnKeys(insertion) == sorted + named;
    FilterPartition(insertion, p, q);
    assert |sorted| == |indices| by {
      assert |multiset(sorted)| == |multiset(indices)|;
    }
    forall i | 0 <= i < |indices|
      ensures IsArrayIndex(sorted[i])
    {
      assert sorted[i] in multiset(indices);
    }
    assert (sorted + named)[..|indices|] == sorted;
    assert (sorted + named)[|indices|..] == named;
  }

  /** Keys that were added once each are visited once each. */
  lemma OwnKeysNoDuplicates(insertion: seq<string>)
    requires NoDuplicates(insertion)
    ensures NoDuplicates(OwnKeys(insertion))
    ensures forall k :: k in OwnKeys(insertion) <==> k in insertion
  {
    assert multiset(OwnKeys(insertion)) == multiset(insertion) by {
      OwnKeysOrder(insertion);
    }
    PermutationNoDuplicates(insertion, OwnKeys(insertion));
  }

  /** A permutation of a list without duplicates has none either, and the same members. */
  lemma PermutationNoDuplicates(xs: seq<string>, r: seq<string>)
    requires NoDuplicates(xs) && multiset(r) == multiset(xs)
    ensures NoDuplicates(r)
    ensures forall k :: k in r <==> k in xs
  {
    forall k ensures k in r <==> k in xs {
      assert k in r <==> k in multiset(r);
      assert k in xs <==> k in multiset(xs);
    }
    MultiplicityOne(xs);
    forall i, j | 0 <= i < j < |r| ensures r[i] != r[j] {
      if r[i] == r[j] {
        TwoOccurrences(r, i, j);
      }
    }
  }

  lemma {:induction false} MultiplicityOne(xs: seq<string>)
    requires NoDuplicates(xs)
    ensures forall x :: multiset(xs)[x] <= 1
  {
    if xs != [] {
      var init := xs[..|xs| - 1];
      MultiplicityOne(init);
      assert xs == init + [xs[|xs| - 1]];
      assert xs[|xs| - 1] !in init;
    }
  }

  lemma TwoOccurrences(xs: seq<string>, i: nat, j: nat)
    requires i < j < |xs| && xs[i] == xs[j]
    ensures multiset(xs)[xs[i]] >= 2
  {
    var x := xs[i];
    assert xs == xs[..j] + [xs[j]] + xs[j + 1..];
    assert xs[..j] == xs[..i] + [xs[i]] + xs[i + 1..j];
  }
}
