/**
 * Models of the two array searches the pricing engine uses:
 * `Array.prototype.find` with an `x => x.id === id` predicate (first match or
 * `undefined`), and the "does any element carry this id" test behind it.
 * The key function plays the role of the `.id` property access.
 */
module Lookup {
  import opened Wrappers

  /** Some element of `xs` has key `id`. */
  predicate HasKey<T>(xs: seq<T>, key: T -> string, id: string)
  {
    exists i :: 0 <= i < |xs| && key(xs[i]) == id
  }

  /** `x` is the element `find` stops at: the first one whose key is `id`. */
  ghost predicate IsFirstMatch<T>(xs: seq<T>, key: T -> string, id: string, x: T)
  {
    exists i :: 0 <= i < |xs| && xs[i] == x && key(x) == id &&
      forall j :: 0 <= j < i ==> key(xs[j]) != id
  }

  /** No two elements of `xs` share a key. */
  predicate UniqueKeys<T>(xs: seq<T>, key: T -> string)
  {
    forall i, j :: 0 <= i < j < |xs| ==> key(xs[i]) != key(xs[j])
  }

  /** `xs.find(x => key(x) === id)`, with `undefined` as `None`. */
  function Find<T>(xs: seq<T>, key: T -> string, id: string): (r: Option<T>)
    ensures r.None? <==> !HasKey(xs, key, id)
    ensures r.Some? ==> IsFirstMatch(xs, key, id, r.value)
    decreases |xs|
  {
    if |xs| == 0 then None
    else if key(xs[0]) == id then Some(xs[0])
    else
      var rest := Find(xs[1..], key, id);
      assert forall i :: 1 <= i < |xs| ==> xs[i] == xs[1..][i - 1];
      if rest.Some? then
        assert IsFirstMatch(xs, key, id, rest.value) by {
          assert IsFirstMatch(xs[1..], key, id, rest.value);
          var k :| 0 <= k < |xs[1..]| && xs[1..][k] == rest.value && key(rest.value) == id &&
            forall j :: 0 <= j < k ==> key(xs[1..][j]) != id;
          assert xs[k + 1] == rest.value;
          forall j | 0 <= j < k + 1 ensures key(xs[j]) != id {
            if j > 0 { assert xs[j] == xs[1..][j - 1]; }
          }
        }
        rest
      else
        assert forall i :: 0 <= i < |xs| ==> key(xs[i]) != id by {
          forall i | 0 <= i < |xs| ensures key(xs[i]) != id {
            if i > 0 { assert xs[i] == xs[1..][i - 1]; }
          }
        }
        rest
  }

  /** When keys are unique, `find` returns the one element carrying the key. */
  lemma FindUnique<T>(xs: seq<T>, key: T -> string, i: nat)
    requires UniqueKeys(xs, key)
    requires i < |xs|
    ensures Find(xs, key, key(xs[i])) == Some(xs[i])
  {
    var r := Find(xs, key, key(xs[i]));
    assert HasKey(xs, key, key(xs[i]));
    var k :| 0 <= k < |xs| && xs[k] == r.value && key(r.value) == key(xs[i]) &&
      forall j :: 0 <= j < k ==> key(xs[j]) != key(xs[i]);
    assert k == i;
  }
}
