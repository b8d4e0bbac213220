/**
 * The two list transforms every store uses on its collections:
 * `items.map(x => key(x) === k ? y : x)` and `items.filter(x => key(x) !== k)`.
 */
module SeqOps {

  /** Every element whose key is `k` is replaced by `y`; the others stay where they are. */
  function ReplaceByKey<T, K(==)>(s: seq<T>, key: T -> K, k: K, y: T): (r: seq<T>)
    ensures |r| == |s|
    ensures forall i :: 0 <= i < |s| ==> r[i] == if key(s[i]) == k then y else s[i]
  {
    if s == [] then []
    else [if key(s[0]) == k then y else s[0]] + ReplaceByKey(s[1..], key, k, y)
  }

  /** Every element whose key is `k` is passed through `f`; the others stay where they are. */
  function UpdateByKey<T, K(==)>(s: seq<T>, key: T -> K, k: K, f: T -> T): (r: seq<T>)
    ensures |r| == |s|
    ensures forall i :: 0 <= i < |s| ==> r[i] == if key(s[i]) == k then f(s[i]) else s[i]
  {
    if s == [] then []
    else [if key(s[0]) == k then f(s[0]) else s[0]] + UpdateByKey(s[1..], key, k, f)
  }

  /** The elements whose key is not `k`, in their original order. */
  function RemoveByKey<T, K(==)>(s: seq<T>, key: T -> K, k: K): (r: seq<T>)
    ensures |r| <= |s|
    ensures forall i :: 0 <= i < |r| ==> key(r[i]) != k && r[i] in s
    ensures forall i :: 0 <= i < |s| && key(s[i]) != k ==> s[i] in r
  {
    if s == [] then []
    else
      assert s == [s[0]] + s[1..];
      (if key(s[0]) == k then [] else [s[0]]) + RemoveByKey(s[1..], key, k)
  }

  /** No element has key `k`. */
  predicate KeyAbsent<T, K(==)>(s: seq<T>, key: T -> K, k: K) {
    forall i :: 0 <= i < |s| ==> key(s[i]) != k
  }

  lemma ReplaceAbsent<T, K>(s: seq<T>, key: T -> K, k: K, y: T)
    requires KeyAbsent(s, key, k)
    ensures ReplaceByKey(s, key, k, y) == s
  {
  }

  /** Replacing twice with the same element is replacing once. */
  lemma ReplaceIdempotent<T, K>(s: seq<T>, key: T -> K, k: K, y: T)
    ensures ReplaceByKey(ReplaceByKey(s, key, k, y), key, k, y) == ReplaceByKey(s, key, k, y)
  {
  }

  /** Filtering distributes over concatenation, so the survivors keep their relative order. */
  lemma {:induction false} RemoveConcat<T, K>(a: seq<T>, b: seq<T>, key: T -> K, k: K)
    ensures RemoveByKey(a + b, key, k) == RemoveByKey(a, key, k) + RemoveByKey(b, key, k)
  {
    if a == [] {
      assert a + b == b;
    } else {
      assert (a + b)[1..] == a[1..] + b;
      assert (a + b)[0] == a[0];
      RemoveConcat(a[1..], b, key, k);
    }
  }

  /** A surviving element lands right after the survivors that preceded it. */
  lemma RemovePlacesSurvivor<T, K>(s: seq<T>, key: T -> K, k: K, j: int)
    requires 0 <= j < |s| && key(s[j]) != k
    ensures var before := |RemoveByKey(s[..j], key, k)|;
      before < |RemoveByKey(s, key, k)| && RemoveByKey(s, key, k)[before] == s[j]
  {
    assert s == s[..j] + ([s[j]] + s[j + 1..]);
    RemoveConcat(s[..j], [s[j]] + s[j + 1..], key, k);
    RemoveConcat([s[j]], s[j + 1..], key, k);
    assert RemoveByKey([s[j]], key, k) == [s[j]];
  }

  /** Of two survivors, the earlier one lands earlier: removal keeps the relative order. */
  lemma RemoveKeepsOrder<T, K>(s: seq<T>, key: T -> K, k: K, i: int, j: int)
    requires 0 <= i < j < |s| && key(s[i]) != k
    ensures |RemoveByKey(s[..i], key, k)| < |RemoveByKey(s[..j], key, k)|
  {
    assert s[..j] == s[..i] + ([s[i]] + s[i + 1..j]);
    RemoveConcat(s[..i], [s[i]] + s[i + 1..j], key, k);
    RemoveConcat([s[i]], s[i + 1..j], key, k);
    assert RemoveByKey([s[i]], key, k) == [s[i]];
  }

  /** Removing a key nobody has changes nothing. */
  lemma {:induction false} RemoveAbsent<T, K>(s: seq<T>, key: T -> K, k: K)
    requires KeyAbsent(s, key, k)
    ensures RemoveByKey(s, key, k) == s
  {
    if s != [] {
      RemoveAbsent(s[1..], key, k);
    }
  }

  /** Removing wipes out every occurrence at once: a second removal changes nothing. */
  lemma RemoveIdempotent<T, K>(s: seq<T>, key: T -> K, k: K)
    ensures RemoveByKey(RemoveByKey(s, key, k), key, k) == RemoveByKey(s, key, k)
  {
    RemoveAbsent(RemoveByKey(s, key, k), key, k);
  }

  /** Appending an element with a fresh key and then removing that key restores the list. */
  lemma AppendThenRemove<T, K>(s: seq<T>, key: T -> K, y: T)
    requires KeyAbsent(s, key, key(y))
    ensures RemoveByKey(s + [y], key, key(y)) == s
  {
    RemoveConcat(s, [y], key, key(y));
    RemoveAbsent(s, key, key(y));
    assert RemoveByKey([y], key, key(y)) == [];
  }
}
