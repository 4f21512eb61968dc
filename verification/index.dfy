/**
  The key index a refresh builds: iterate over the fetched list in order and
  store each element under its key, so that a later element overwrites an
  earlier one with the same key (last write wins).
 */
module KeyIndex {

  /** The map obtained by assigning `m[key(x)] := x` for each `x` of `xs` in order. */
  function IndexBy<T>(xs: seq<T>, key: T -> string): (m: map<string, T>)
    ensures forall k | k in m :: key(m[k]) == k && m[k] in xs
  {
    if xs == [] then map[]
    else IndexBy(xs[..|xs| - 1], key)[key(xs[|xs| - 1]) := xs[|xs| - 1]]
  }

  /** The keys of the elements of `xs`. */
  function KeysOf<T>(xs: seq<T>, key: T -> string): set<string>
  {
    set i | 0 <= i < |xs| :: key(xs[i])
  }

  /** `i` is the position of the last element of `xs` whose key is `k`. */
  ghost predicate IsLastWithKey<T>(xs: seq<T>, key: T -> string, k: string, i: int)
  {
    0 <= i < |xs| && key(xs[i]) == k && forall j :: i < j < |xs| ==> key(xs[j]) != k
  }

  lemma KeysOfSnoc<T>(xs: seq<T>, key: T -> string)
    requires xs != []
    ensures KeysOf(xs, key) == KeysOf(xs[..|xs| - 1], key) + {key(xs[|xs| - 1])}
  {
    var init := xs[..|xs| - 1];
    forall k | k in KeysOf(xs, key)
      ensures k in KeysOf(init, key) + {key(xs[|xs| - 1])}
    {
      var i :| 0 <= i < |xs| && key(xs[i]) == k;
      if i < |xs| - 1 {
        assert init[i] == xs[i];
      }
    }
    forall k | k in KeysOf(init, key)
      ensures k in KeysOf(xs, key)
    {
      var i :| 0 <= i < |init| && key(init[i]) == k;
      assert xs[i] == init[i];
    }
  }

  /** The index holds exactly one entry per distinct key of the list. */
  lemma {:induction false} IndexByKeys<T>(xs: seq<T>, key: T -> string)
    ensures IndexBy(xs, key).Keys == KeysOf(xs, key)
  {
    if xs != [] {
      IndexByKeys(xs[..|xs| - 1], key);
      KeysOfSnoc(xs, key);
    }
  }

  /** An empty list and only an empty list gives an empty index. */
  lemma IndexByEmpty<T>(xs: seq<T>, key: T -> string)
    ensures |IndexBy(xs, key)| == 0 <==> xs == []
  {
    IndexByKeys(xs, key);
    if xs != [] {
      assert key(xs[0]) in KeysOf(xs, key);
      assert key(xs[0]) in IndexBy(xs, key);
    }
  }

  /** The entry for a key is the last element of the list with that key. */
  lemma {:induction false} IndexByLastWins<T>(xs: seq<T>, key: T -> string, k: string, i: int)
    requires IsLastWithKey(xs, key, k, i)
    ensures k in IndexBy(xs, key) && IndexBy(xs, key)[k] == xs[i]
  {
    var n := |xs| - 1;
    var init := xs[..n];
    assert IndexBy(xs, key) == IndexBy(init, key)[key(xs[n]) := xs[n]];
    if i < n {
      assert key(xs[n]) != k;
      assert IsLastWithKey(init, key, k, i);
      IndexByLastWins(init, key, k, i);
      assert init[i] == xs[i];
    }
  }

  /** Every entry of the index is the last element of the list with its key. */
  lemma {:induction false} IndexByEntry<T>(xs: seq<T>, key: T -> string, k: string)
    requires k in IndexBy(xs, key)
    ensures exists i :: IsLastWithKey(xs, key, k, i) && IndexBy(xs, key)[k] == xs[i]
  {
    var n := |xs| - 1;
    if key(xs[n]) == k {
      assert IsLastWithKey(xs, key, k, n);
    } else {
      var init := xs[..n];
      IndexByEntry(init, key, k);
      var i :| IsLastWithKey(init, key, k, i) && IndexBy(init, key)[k] == init[i];
      assert IsLastWithKey(xs, key, k, i);
    }
  }

  /** With distinct keys, every element of the list is found under its own key. */
  lemma IndexByDistinct<T>(xs: seq<T>, key: T -> string, i: int)
    requires 0 <= i < |xs|
    requires forall a, b :: 0 <= a < b < |xs| ==> key(xs[a]) != key(xs[b])
    ensures key(xs[i]) in IndexBy(xs, key) && IndexBy(xs, key)[key(xs[i])] == xs[i]
  {
    IndexByLastWins(xs, key, key(xs[i]), i);
  }
}
