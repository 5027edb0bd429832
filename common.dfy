/** Shared vocabulary: optional values, results, and the key-indexed
    lookup tables that the upgrade engine builds with dictionary
    comprehensions (`{key(x): val(x) for x in xs}`), where a later element
    replaces an earlier one with the same key. */
module Common {

  datatype Option<+T> = None | Some(value: T)

  datatype Result<+R, +E> = Success(value: R) | Failure(error: E)

  /** Python truthiness of a string-valued field: `None` and `""` are both
      represented by the empty string and are both false. */
  predicate Truthy(s: string) {
    s != ""
  }

  /** `{key(x): val(x) for x in xs}`: the last element with a given key wins. */
  function IndexMap<T, V>(xs: seq<T>, key: T -> string, val: T -> V): (m: map<string, V>)
    ensures forall k :: k in m <==> exists i :: 0 <= i < |xs| && key(xs[i]) == k
    ensures forall k :: k in m ==> exists i :: 0 <= i < |xs| && key(xs[i]) == k && m[k] == val(xs[i])
    decreases |xs|
  {
    if xs == [] then map[]
    else
      var prefix := xs[..|xs| - 1];
      var m0 := IndexMap(prefix, key, val);
      assert forall i :: 0 <= i < |prefix| ==> prefix[i] == xs[i];
      m0[key(xs[|xs| - 1]) := val(xs[|xs| - 1])]
  }

  /** The entry stored under an element's key is that element's value when no
      later element has the same key: dictionary comprehensions keep the last. */
  lemma {:induction false} IndexMapLastWins<T, V>(xs: seq<T>, key: T -> string, val: T -> V, i: nat)
    requires i < |xs|
    requires forall j :: i < j < |xs| ==> key(xs[j]) != key(xs[i])
    ensures key(xs[i]) in IndexMap(xs, key, val)
    ensures IndexMap(xs, key, val)[key(xs[i])] == val(xs[i])
    decreases |xs|
  {
    if i < |xs| - 1 {
      var prefix := xs[..|xs| - 1];
      assert prefix[i] == xs[i];
      forall j | i < j < |prefix| ensures key(prefix[j]) != key(prefix[i]) {
        assert prefix[j] == xs[j];
      }
      IndexMapLastWins(prefix, key, val, i);
    }
  }
}
