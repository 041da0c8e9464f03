/** Sums over a ledger. A database `$group` with `$sum` adds up one number per
    matching document; here every document carries a weight (0 when it does
    not match) and `Sum` adds the weights. */
module Sums {

  function Sum<T>(s: seq<T>, w: T -> int): int
  {
    if s == [] then 0 else w(s[0]) + Sum(s[1..], w)
  }

  /** Summing a concatenation sums the parts. */
  lemma {:induction false} SumConcat<T>(a: seq<T>, b: seq<T>, w: T -> int)
    ensures Sum(a + b, w) == Sum(a, w) + Sum(b, w)
  {
    if a == [] {
      assert a + b == b;
    } else {
      assert (a + b)[1..] == a[1..] + b;
      SumConcat(a[1..], b, w);
    }
  }

  /** Appending one document adds its weight. */
  lemma SumAppend<T>(s: seq<T>, x: T, w: T -> int)
    ensures Sum(s + [x], w) == Sum(s, w) + w(x)
  {
    SumConcat(s, [x], w);
    assert [x][1..] == [];
  }

  /** Documents of weight 0 add nothing, so a sum with no match is 0. */
  lemma {:induction false} SumZero<T>(s: seq<T>, w: T -> int)
    requires forall x :: x in s ==> w(x) == 0
    ensures Sum(s, w) == 0
  {
    if s != [] {
      SumZero(s[1..], w);
    }
  }

  /** The sequence without its element at index `i`: what deleting one document leaves. */
  function RemoveAt<T>(s: seq<T>, i: nat): (r: seq<T>)
    requires i < |s|
    ensures |r| == |s| - 1
    ensures multiset(r) + multiset{s[i]} == multiset(s)
    ensures forall k :: 0 <= k < i ==> r[k] == s[k]
    ensures forall k :: i <= k < |r| ==> r[k] == s[k + 1]
  {
    assert s == s[..i] + [s[i]] + s[i + 1..];
    s[..i] + s[i + 1..]
  }

  /** Deleting the document at `i` takes its weight out of the sum. */
  lemma {:induction false} SumRemoveAt<T>(s: seq<T>, i: nat, w: T -> int)
    requires i < |s|
    ensures Sum(s, w) == Sum(RemoveAt(s, i), w) + w(s[i])
  {
    assert s == s[..i] + ([s[i]] + s[i + 1..]);
    SumConcat(s[..i], [s[i]] + s[i + 1..], w);
    SumConcat([s[i]], s[i + 1..], w);
    SumConcat(s[..i], s[i + 1..], w);
    assert Sum([s[i]], w) == w(s[i]);
  }

  /** The order of the ledger does not matter: two sequences holding the same
      documents have the same sum. */
  lemma {:induction false} SumPermutation<T>(a: seq<T>, b: seq<T>, w: T -> int)
    requires multiset(a) == multiset(b)
    ensures Sum(a, w) == Sum(b, w)
  {
    if a == [] {
      assert |b| == |multiset(b)| == 0;
    } else {
      var x := a[0];
      assert x in multiset(b);
      var i :| 0 <= i < |b| && b[i] == x;
      var rest := RemoveAt(b, i);
      assert a == [x] + a[1..];
      RemoveMatchingHead(a, b, i);
      SumPermutation(a[1..], rest, w);
      SumRemoveAt(b, i, w);
    }
  }

  /** Taking the first document off one sequence and a copy of it off an
      equal multiset leaves equal multisets. */
  lemma RemoveMatchingHead<T>(a: seq<T>, b: seq<T>, i: nat)
    requires a != [] && multiset(a) == multiset(b) && i < |b| && b[i] == a[0]
    ensures multiset(a[1..]) == multiset(RemoveAt(b, i))
  {
    var x, rest := a[0], RemoveAt(b, i);
    assert a == [x] + a[1..];
    assert multiset(a) == multiset{x} + multiset(a[1..]);
    assert multiset(a[1..]) == multiset(a) - multiset{x};
    assert multiset(rest) == multiset(b) - multiset{x};
  }
}
