/** Sums and images over sequences: the `reduce` and `map` idioms every
    calculator uses, with the facts about permutations that the sorted views
    of the input rely on. */
module Sequences {

  /** The sum of `f` over `s`, folded from the left as
      `s.reduce((sum, x) => sum + f(x), 0)` does. */
  function SumBy<T>(s: seq<T>, f: T -> real): real
  {
    if |s| == 0 then 0.0 else SumBy(s[..|s| - 1], f) + f(s[|s| - 1])
  }

  /** Summing over a concatenation sums over the two parts. */
  lemma {:induction false} SumByAppend<T>(a: seq<T>, b: seq<T>, f: T -> real)
    ensures SumBy(a + b, f) == SumBy(a, f) + SumBy(b, f)
    decreases |b|
  {
    if |b| == 0 {
      assert a + b == a;
    } else {
      var b' := b[..|b| - 1];
      assert (a + b)[..|a + b| - 1] == a + b';
      SumByAppend(a, b', f);
    }
  }

  /** Removing the last element of `a` and one occurrence of it from a
      permutation `b` of `a` leaves two permutations of each other. */
  lemma RemoveMatching<T>(a: seq<T>, b: seq<T>) returns (i: nat)
    requires multiset(a) == multiset(b) && |a| > 0
    ensures i < |b| && b[i] == a[|a| - 1]
    ensures multiset(a[..|a| - 1]) == multiset(b[..i] + b[i + 1..])
  {
    var x := a[|a| - 1];
    assert a == a[..|a| - 1] + [x];
    assert x in multiset(b);
    i :| 0 <= i < |b| && b[i] == x;
    assert b == b[..i] + [x] + b[i + 1..];
    assert multiset(b) == multiset(b[..i]) + multiset{x} + multiset(b[i + 1..]);
    assert multiset(b[..i] + b[i + 1..]) == multiset(b[..i]) + multiset(b[i + 1..]);
    assert multiset(a[..|a| - 1]) == multiset(a) - multiset{x};
  }

  /** The sum over a sequence does not depend on the order of its elements. */
  lemma {:induction false} SumByPermutation<T>(a: seq<T>, b: seq<T>, f: T -> real)
    requires multiset(a) == multiset(b)
    ensures SumBy(a, f) == SumBy(b, f)
    decreases |a|
  {
    if |a| == 0 {
      assert |multiset(b)| == 0;
    } else {
      var i := RemoveMatching(a, b);
      var x := b[i];
      SumByPermutation(a[..|a| - 1], b[..i] + b[i + 1..], f);
      assert b == (b[..i] + [x]) + b[i + 1..];
      SumByAppend(b[..i] + [x], b[i + 1..], f);
      SumByAppend(b[..i], [x], f);
      SumByAppend(b[..i], b[i + 1..], f);
      assert [x][..0] == [];
    }
  }

  /** The image of `s` under `f`, element by element: `s.map(f)`. */
  function Image<T, U>(s: seq<T>, f: T -> U): (r: seq<U>)
    ensures |r| == |s|
    ensures forall i :: 0 <= i < |s| ==> r[i] == f(s[i])
  {
    if |s| == 0 then [] else [f(s[0])] + Image(s[1..], f)
  }

  /** The image of a concatenation is the concatenation of the images. */
  lemma ImageAppend<T, U>(a: seq<T>, b: seq<T>, f: T -> U)
    ensures Image(a + b, f) == Image(a, f) + Image(b, f)
  {
  }

  /** The image of a sequence split around position `i`. */
  lemma ImageSplit<T, U>(b: seq<T>, i: nat, f: T -> U)
    requires i < |b|
    ensures Image(b, f) == Image(b[..i], f) + ([f(b[i])] + Image(b[i + 1..], f))
    ensures Image(b[..i] + b[i + 1..], f) == Image(b[..i], f) + Image(b[i + 1..], f)
  {
    assert b == b[..i] + b[i..];
    ImageAppend(b[..i], b[i..], f);
    assert b[i..][1..] == b[i + 1..];
    ImageAppend(b[..i], b[i + 1..], f);
  }

  /** Taking one element out of a sequence takes its image out of the
      image. */
  lemma ImageRemoveAt<T, U>(b: seq<T>, i: nat, f: T -> U)
    requires i < |b|
    ensures multiset(Image(b, f)) == multiset(Image(b[..i] + b[i + 1..], f)) + multiset{f(b[i])}
  {
    ImageSplit(b, i, f);
    var fl, y, fr := Image(b[..i], f), f(b[i]), Image(b[i + 1..], f);
    assert multiset(fl + ([y] + fr)) == multiset(fl) + multiset{y} + multiset(fr);
  }

  /** Permuting a sequence permutes its image. */
  lemma {:induction false} ImagePermutation<T, U>(a: seq<T>, b: seq<T>, f: T -> U)
    requires multiset(a) == multiset(b)
    ensures multiset(Image(a, f)) == multiset(Image(b, f))
    decreases |a|
  {
    if |a| == 0 {
      assert |multiset(b)| == 0;
    } else {
      var i := RemoveMatching(a, b);
      var n := |a| - 1;
      ImagePermutation(a[..n], b[..i] + b[i + 1..], f);
      assert a[..n] + a[n + 1..] == a[..n];
      ImageRemoveAt(a, n, f);
      ImageRemoveAt(b, i, f);
    }
  }
}
