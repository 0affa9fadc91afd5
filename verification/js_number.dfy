/** JavaScript numbers as exact reals extended with the two infinities and
    NaN: enough to follow a division by zero through sums and comparisons. */
module JsNumber {
  import opened Sequences

  datatype Number = Finite(value: real) | PlusInfinity | MinusInfinity | NaN

  /** `x / y`: finite unless `y` is zero; then the sign of `x` picks the
      infinity, and `0 / 0` is NaN. */
  function Divide(x: real, y: real): (r: Number)
    ensures r.Finite? <==> y != 0.0
    ensures r.Finite? ==> r.value * y == x
    ensures r == PlusInfinity <==> y == 0.0 && x > 0.0
    ensures r == MinusInfinity <==> y == 0.0 && x < 0.0
    ensures r == NaN <==> y == 0.0 && x == 0.0
  {
    if y != 0.0 then Finite(x / y)
    else if x > 0.0 then PlusInfinity
    else if x < 0.0 then MinusInfinity
    else NaN
  }

  /** `a + b`: NaN absorbs everything, opposite infinities give NaN, an
      infinity absorbs any finite number. */
  function Add(a: Number, b: Number): Number
  {
    if a == NaN || b == NaN then NaN
    else if (a == PlusInfinity && b == MinusInfinity) || (a == MinusInfinity && b == PlusInfinity) then NaN
    else if a == PlusInfinity || b == PlusInfinity then PlusInfinity
    else if a == MinusInfinity || b == MinusInfinity then MinusInfinity
    else Finite(a.value + b.value)
  }

  /** `a > bound` for a finite `bound`: every comparison with NaN is false. */
  predicate Exceeds(a: Number, bound: real)
  {
    match a
    case Finite(v) => v > bound
    case PlusInfinity => true
    case MinusInfinity => false
    case NaN => false
  }

  /** The value of a finite number; the others count as nothing. */
  function FiniteValue(n: Number): real
  {
    if n.Finite? then n.value else 0.0
  }

  /** `ns.reduce((sum, n) => sum + n, 0)`, left to right. */
  function Sum(ns: seq<Number>): Number
  {
    if |ns| == 0 then Finite(0.0)
    else Add(Sum(ns[..|ns| - 1]), ns[|ns| - 1])
  }

  /** What the sum is, independently of the order of its terms: NaN when a
      term is NaN or both infinities occur, an infinity when only that
      infinity occurs, otherwise the exact sum of the terms. */
  lemma {:induction false} SumClassified(ns: seq<Number>)
    ensures Sum(ns) == NaN <==> NaN in ns || (PlusInfinity in ns && MinusInfinity in ns)
    ensures Sum(ns) == PlusInfinity <==> PlusInfinity in ns && NaN !in ns && MinusInfinity !in ns
    ensures Sum(ns) == MinusInfinity <==> MinusInfinity in ns && NaN !in ns && PlusInfinity !in ns
    ensures Sum(ns).Finite? ==> Sum(ns).value == SumBy(ns, FiniteValue)
  {
    if |ns| > 0 {
      var init, last := ns[..|ns| - 1], ns[|ns| - 1];
      SumClassified(init);
      assert ns == init + [last];
      forall y
        ensures y in ns <==> y in init || y == last
      {
      }
    }
  }

  /** Reordering the terms does not change the sum. */
  lemma SumPermutation(a: seq<Number>, b: seq<Number>)
    requires multiset(a) == multiset(b)
    ensures Sum(a) == Sum(b)
  {
    SumClassified(a);
    SumClassified(b);
    assert NaN in a <==> NaN in multiset(b);
    assert PlusInfinity in a <==> PlusInfinity in multiset(b);
    assert MinusInfinity in a <==> MinusInfinity in multiset(b);
    SumByPermutation(a, b, FiniteValue);
  }

  /** With only finite terms, the sum is the exact sum of their values. */
  lemma FiniteSum(ns: seq<Number>)
    requires forall i :: 0 <= i < |ns| ==> ns[i].Finite?
    ensures Sum(ns) == Finite(SumBy(ns, FiniteValue))
  {
    SumClassified(ns);
    assert NaN !in ns && PlusInfinity !in ns && MinusInfinity !in ns;
  }
}
