/** `np.argsort(-keys, kind='mergesort')`: the indices of `keys` ordered by
    descending key, equal keys keeping their original order. */
module Argsort {

  /** Index `a` comes before index `b`: higher key first, ties by position. */
  predicate Before(keys: seq<real>, a: nat, b: nat)
    requires a < |keys| && b < |keys|
  {
    keys[a] > keys[b] || (keys[a] == keys[b] && a < b)
  }

  /** Every index of `r` is below |keys| and `r` is strictly ordered by
      `Before` (so in particular duplicate-free). */
  predicate SortedDesc(keys: seq<real>, r: seq<nat>)
  {
    && (forall i :: 0 <= i < |r| ==> r[i] < |keys|)
    && (forall i, j :: 0 <= i < j < |r| ==> Before(keys, r[i], r[j]))
  }

  /** `r` is a stable descending argsort of `keys`. */
  predicate IsArgsort(keys: seq<real>, r: seq<nat>)
  {
    && |r| == |keys|
    && SortedDesc(keys, r)
    && (forall x: nat :: x < |keys| ==> x in r)
  }

  /** Inserts index `x` into the sorted `s` in front of the first index that
      does not come before it. */
  function Insert(keys: seq<real>, s: seq<nat>, x: nat): (r: seq<nat>)
    requires x < |keys| && SortedDesc(keys, s)
    ensures |r| == |s| + 1
    ensures forall y :: y in r <==> y in s || y == x
    ensures x !in s ==> SortedDesc(keys, r)
  {
    if |s| == 0 then [x]
    else if Before(keys, s[0], x) then
      var t := Insert(keys, s[1..], x);
      assert forall y :: y in s[1..] ==> Before(keys, s[0], y) by {
        forall y | y in s[1..] ensures Before(keys, s[0], y) {
          var k :| 0 <= k < |s[1..]| && s[1..][k] == y;
          assert s[k + 1] == y;
        }
      }
      assert forall i :: 0 <= i < |t| ==> t[i] in t;
      [s[0]] + t
    else
      assert x !in s ==> forall i :: 0 <= i < |s| ==> Before(keys, x, s[i]);
      [x] + s
  }

  /** The stable descending argsort of the first `n` keys. */
  function ArgsortPrefix(keys: seq<real>, n: nat): (r: seq<nat>)
    requires n <= |keys|
    ensures |r| == n
    ensures SortedDesc(keys, r)
    ensures forall x: nat :: x in r <==> x < n
  {
    if n == 0 then []
    else Insert(keys, ArgsortPrefix(keys, n - 1), n - 1)
  }

  /** `np.argsort(-keys, kind='mergesort')`. */
  function StableArgsortDesc(keys: seq<real>): (r: seq<nat>)
    ensures IsArgsort(keys, r)
  {
    ArgsortPrefix(keys, |keys|)
  }

  /** `[xs[i] for i in inds]`. */
  function Permute<T>(xs: seq<T>, inds: seq<nat>): (r: seq<T>)
    requires forall i :: 0 <= i < |inds| ==> inds[i] < |xs|
    ensures |r| == |inds|
    ensures forall i :: 0 <= i < |inds| ==> r[i] == xs[inds[i]]
  {
    seq(|inds|, i requires 0 <= i < |inds| => xs[inds[i]])
  }

  lemma SortedTail(keys: seq<real>, r: seq<nat>)
    requires |r| > 0 && SortedDesc(keys, r)
    ensures SortedDesc(keys, r[1..])
    ensures r[0] !in r[1..]
  {
    forall k | 0 <= k < |r[1..]|
      ensures r[1..][k] != r[0]
    {
      assert Before(keys, r[0], r[k + 1]);
    }
  }

  /** Two duplicate-free orderings by `Before` of the same indices are the
      same sequence: a stable sort has exactly one possible result. */
  lemma {:induction false} SortedUnique(keys: seq<real>, a: seq<nat>, b: seq<nat>)
    requires SortedDesc(keys, a) && SortedDesc(keys, b)
    requires forall x :: x in a <==> x in b
    ensures a == b
  {
    assert |a| > 0 ==> a[0] in b;
    assert |b| > 0 ==> b[0] in a;
    if |a| > 0 {
      var j :| 0 <= j < |a| && a[j] == b[0];
      var k :| 0 <= k < |b| && b[k] == a[0];
      assert j > 0 ==> Before(keys, a[0], b[0]);
      assert k > 0 ==> Before(keys, b[0], a[0]);
      assert a[0] == b[0];
      SortedTail(keys, a);
      SortedTail(keys, b);
      forall x ensures x in a[1..] <==> x in b[1..] {
        assert x in a <==> x in a[1..] || x == a[0];
        assert x in b <==> x in b[1..] || x == b[0];
      }
      SortedUnique(keys, a[1..], b[1..]);
      assert a == [a[0]] + a[1..];
      assert b == [b[0]] + b[1..];
    }
  }

  /** Any stable descending argsort of `keys` is the one computed here. */
  lemma ArgsortIsUnique(keys: seq<real>, r: seq<nat>)
    requires IsArgsort(keys, r)
    ensures r == StableArgsortDesc(keys)
  {
    SortedUnique(keys, r, StableArgsortDesc(keys));
  }

  /** Permuting by the argsort yields keys in non-increasing order. */
  lemma PermutedKeysDescending(keys: seq<real>)
    ensures var s := Permute(keys, StableArgsortDesc(keys));
            forall i, j :: 0 <= i < j < |s| ==> s[i] >= s[j]
  {
    var r := StableArgsortDesc(keys);
    assert forall i, j :: 0 <= i < j < |r| ==> Before(keys, r[i], r[j]);
  }
}
