/** The stable sort behind `Array.prototype.sort` with a consistent
    comparator. A comparator `cmp` is read as the relation
    `le(a, b) := cmp(a, b) <= 0` ("a may stay in front of b"); for the
    comparators the calculators use this relation is a total preorder, and
    a stable sort by it has exactly one possible result, which insertion sort
    computes. */
module StableSort {

  /** `le` is total and transitive: every comparator built from numeric
      differences of keys gives such a relation. */
  ghost predicate TotalPreorder<T(!new)>(le: (T, T) -> bool)
  {
    && (forall a, b :: le(a, b) || le(b, a))
    && (forall a, b, c :: le(a, b) && le(b, c) ==> le(a, c))
  }

  /** Every element may stay in front of every later one. */
  ghost predicate Sorted<T>(s: seq<T>, le: (T, T) -> bool)
  {
    forall i, j :: 0 <= i < j < |s| ==> le(s[i], s[j])
  }

  /** `a` and `b` compare equal: the comparator returns 0 both ways. */
  predicate Level<T>(a: T, b: T, le: (T, T) -> bool)
  {
    le(a, b) && le(b, a)
  }

  /** Places `x` in front of the first element it may precede, so that it
      stays ahead of every element that compares equal to it. */
  function Insert<T>(x: T, s: seq<T>, le: (T, T) -> bool): (r: seq<T>)
    ensures multiset(r) == multiset(s) + multiset{x}
    ensures |r| == |s| + 1
  {
    if |s| == 0 || le(x, s[0]) then [x] + s
    else
      assert s == [s[0]] + s[1..];
      [s[0]] + Insert(x, s[1..], le)
  }

  /** Insertion sort: the first element is inserted into the sorted rest. */
  function Sort<T>(s: seq<T>, le: (T, T) -> bool): (r: seq<T>)
    ensures multiset(r) == multiset(s)
    ensures |r| == |s|
  {
    if |s| == 0 then []
    else
      assert s == [s[0]] + s[1..];
      Insert(s[0], Sort(s[1..], le), le)
  }

  /** The elements of `s` that compare equal to `x`, in their order in `s`. */
  function Ties<T(!new)>(s: seq<T>, x: T, le: (T, T) -> bool): (r: seq<T>)
    ensures forall y :: y in r <==> y in s && Level(y, x, le)
  {
    if |s| == 0 then []
    else (if Level(s[0], x, le) then [s[0]] else []) + Ties(s[1..], x, le)
  }

  /** Inserting into a sorted sequence keeps it sorted. */
  lemma {:induction false} InsertSorted<T(!new)>(x: T, s: seq<T>, le: (T, T) -> bool)
    requires TotalPreorder(le) && Sorted(s, le)
    ensures Sorted(Insert(x, s, le), le)
  {
    if |s| == 0 || le(x, s[0]) {
      assert [x] + s == Insert(x, s, le);
    } else {
      var rest := Insert(x, s[1..], le);
      InsertSorted(x, s[1..], le);
      forall j | 0 <= j < |rest|
        ensures le(s[0], rest[j])
      {
        assert rest[j] in multiset(rest);
        if rest[j] != x {
          assert rest[j] in multiset(s[1..]);
          var k :| 0 <= k < |s[1..]| && s[1..][k] == rest[j];
          assert s[k + 1] == rest[j];
        }
      }
    }
  }

  /** The sort orders its result. */
  lemma {:induction false} SortSorted<T(!new)>(s: seq<T>, le: (T, T) -> bool)
    requires TotalPreorder(le)
    ensures Sorted(Sort(s, le), le)
  {
    if |s| > 0 {
      SortSorted(s[1..], le);
      InsertSorted(s[0], Sort(s[1..], le), le);
    }
  }

  /** Inserting `y` adds it to its own class of equal elements, in front of
      the members already there. */
  lemma {:induction false} InsertTies<T(!new)>(y: T, s: seq<T>, x: T, le: (T, T) -> bool)
    requires TotalPreorder(le)
    ensures Ties(Insert(y, s, le), x, le)
         == (if Level(y, x, le) then [y] else []) + Ties(s, x, le)
  {
    if |s| == 0 || le(y, s[0]) {
      assert ([y] + s)[1..] == s;
    } else {
      var rest := Insert(y, s[1..], le);
      var tail := Ties(s[1..], x, le);
      InsertTies(y, s[1..], x, le);
      assert ([s[0]] + rest)[1..] == rest;
      NotBothLevel(y, s[0], x, le);
      if Level(y, x, le) {
        assert Ties(Insert(y, s, le), x, le) == [y] + tail;
        assert Ties(s, x, le) == tail;
      } else {
        assert Ties(rest, x, le) == tail;
      }
    }
  }

  /** Two elements that do not compare equal are not both level with `x`. */
  lemma NotBothLevel<T(!new)>(y: T, z: T, x: T, le: (T, T) -> bool)
    requires TotalPreorder(le) && !le(y, z)
    ensures !(Level(y, x, le) && Level(z, x, le))
  {
  }

  /** Stability: elements that compare equal keep their input order. */
  lemma {:induction false} SortStable<T(!new)>(s: seq<T>, x: T, le: (T, T) -> bool)
    requires TotalPreorder(le)
    ensures Ties(Sort(s, le), x, le) == Ties(s, x, le)
  {
    if |s| > 0 {
      SortStable(s[1..], x, le);
      InsertTies(s[0], Sort(s[1..], le), x, le);
    }
  }

  /** The class of `x` in the tail of `s` is its class in `s`, without the
      head when the head belongs to it. */
  lemma TiesTail<T(!new)>(s: seq<T>, x: T, le: (T, T) -> bool)
    requires |s| > 0
    ensures Ties(s[1..], x, le)
         == if Level(s[0], x, le) then Ties(s, x, le)[1..] else Ties(s, x, le)
  {
  }

  /** The heads of two sorted sequences with the same classes compare equal,
      so each heads its own class in the other sequence as well. */
  lemma HeadsLevel<T(!new)>(a: seq<T>, b: seq<T>, le: (T, T) -> bool)
    requires TotalPreorder(le) && Sorted(a, le) && Sorted(b, le)
    requires |a| > 0 && |b| > 0
    requires Ties(a, b[0], le) == Ties(b, b[0], le)
    requires Ties(a, a[0], le) == Ties(b, a[0], le)
    ensures a[0] == b[0]
  {
    var a0, b0 := a[0], b[0];
    assert b0 in Ties(b, b0, le);
    var k :| 0 <= k < |a| && a[k] == b0;
    assert le(a0, b0);
    assert a0 in Ties(a, a0, le);
    var m :| 0 <= m < |b| && b[m] == a0;
    assert le(b0, a0);
    assert Ties(b, a0, le)[0] == b0;
  }

  /** Two sorted sequences whose classes of equal elements agree are equal. */
  lemma {:induction false} SortedTiesUnique<T(!new)>(a: seq<T>, b: seq<T>, le: (T, T) -> bool)
    requires TotalPreorder(le) && Sorted(a, le) && Sorted(b, le)
    requires forall x :: Ties(a, x, le) == Ties(b, x, le)
    ensures a == b
    decreases |a|
  {
    if |a| > 0 {
      assert a[0] in Ties(a, a[0], le);
    }
    if |b| > 0 {
      assert b[0] in Ties(b, b[0], le);
    }
    if |a| > 0 {
      assert Ties(a, b[0], le) == Ties(b, b[0], le);
      assert Ties(a, a[0], le) == Ties(b, a[0], le);
      HeadsLevel(a, b, le);
      forall x
        ensures Ties(a[1..], x, le) == Ties(b[1..], x, le)
      {
        assert Ties(a, x, le) == Ties(b, x, le);
        TiesTail(a, x, le);
        TiesTail(b, x, le);
      }
      SortedTiesUnique(a[1..], b[1..], le);
      assert a == [a[0]] + a[1..] && b == [b[0]] + b[1..];
    }
  }

  /** Whatever stable algorithm produces a sorted result, that result is the
      one `Sort` computes. */
  lemma StableSortIsUnique<T(!new)>(s: seq<T>, r: seq<T>, le: (T, T) -> bool)
    requires TotalPreorder(le) && Sorted(r, le)
    requires forall x :: Ties(r, x, le) == Ties(s, x, le)
    ensures r == Sort(s, le)
  {
    SortSorted(s, le);
    forall x
      ensures Ties(r, x, le) == Ties(Sort(s, le), x, le)
    {
      SortStable(s, x, le);
    }
    SortedTiesUnique(r, Sort(s, le), le);
  }
}
