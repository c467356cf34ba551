/**
 * The in-memory sort a worker applies to a chunk (`sort.Strings`). The library
 * algorithm is not part of this model; an insertion sort stands in for it, and
 * `SortedPermutationUnique` shows that any correct sort yields the same run.
 */
module Sorting {
  import opened Lines

  /** Inserts `x` into `s` before the first element not below it. */
  function Insert(x: Line, s: seq<Line>): (r: seq<Line>)
    ensures |r| == |s| + 1
  {
    if s == [] then [x]
    else if Le(x, s[0]) then [x] + s
    else [s[0]] + Insert(x, s[1..])
  }

  /** Inserting into a sorted sequence keeps it sorted and adds exactly `x`. */
  lemma {:induction false} InsertSpec(x: Line, s: seq<Line>)
    requires Sorted(s)
    ensures Sorted(Insert(x, s))
    ensures multiset(Insert(x, s)) == multiset(s) + multiset{x}
  {
    if s == [] {
    } else if Le(x, s[0]) {
      InsertFirst(x, s);
    } else {
      var r := Insert(x, s[1..]);
      SortedTail(s);
      InsertSpec(x, s[1..]);
      InsertLater(x, s, r);
      assert s == [s[0]] + s[1..];
      assert multiset(Insert(x, s)) == multiset{s[0]} + multiset(r);
    }
  }

  lemma InsertFirst(x: Line, s: seq<Line>)
    requires Sorted(s) && s != [] && Le(x, s[0])
    ensures Sorted([x] + s)
  {
    forall y | y in s
      ensures Le(x, y)
    {
      var k :| 0 <= k < |s| && s[k] == y;
      if k > 0 {
        LeTransitive(x, s[0], y);
      }
    }
    SortedCons(x, s);
  }

  lemma InsertLater(x: Line, s: seq<Line>, t: seq<Line>)
    requires Sorted(s) && s != [] && !Le(x, s[0])
    requires Sorted(t) && multiset(t) == multiset(s[1..]) + multiset{x}
    ensures Sorted([s[0]] + t)
  {
    LeTotal(x, s[0]);
    forall y | y in t
      ensures Le(s[0], y)
    {
      assert y in multiset(t);
      if y != x {
        assert y in multiset(s[1..]);
        var k :| 0 <= k < |s[1..]| && s[1..][k] == y;
        assert s[k + 1] == y;
      }
    }
    SortedCons(s[0], t);
  }

  /** The run a worker writes for a chunk (`sort.Strings`). */
  function SortLines(s: seq<Line>): (r: seq<Line>)
    ensures |r| == |s|
  {
    if s == [] then [] else Insert(s[0], SortLines(s[1..]))
  }

  /** The run holds the chunk's lines, each as often, in ascending order. */
  lemma {:induction false} SortLinesSpec(s: seq<Line>)
    ensures Sorted(SortLines(s))
    ensures multiset(SortLines(s)) == multiset(s)
  {
    if s != [] {
      SortLinesSpec(s[1..]);
      InsertSpec(s[0], SortLines(s[1..]));
      assert s == [s[0]] + s[1..];
    }
  }

  /** Two sorted sequences with the same elements are equal: a sort's output
      is determined by its input's multiset. */
  lemma {:induction false} SortedPermutationUnique(a: seq<Line>, b: seq<Line>)
    requires Sorted(a) && Sorted(b)
    requires multiset(a) == multiset(b)
    ensures a == b
  {
    if a == [] {
      assert |b| == |multiset(b)| == 0;
    } else {
      assert |b| == |multiset(b)| == |multiset(a)| == |a|;
      assert a[0] in multiset(b);
      assert b[0] in multiset(a);
      var i :| 0 <= i < |b| && b[i] == a[0];
      var j :| 0 <= j < |a| && a[j] == b[0];
      LessIrreflexive(a[0]);
      LessIrreflexive(b[0]);
      assert Le(b[0], a[0]);
      assert Le(a[0], b[0]);
      LeAntisymmetric(a[0], b[0]);
      assert a == [a[0]] + a[1..];
      assert b == [b[0]] + b[1..];
      assert a[0] == b[0];
      calc {
        multiset(a[1..]);
        multiset(a) - multiset{a[0]};
        multiset(b) - multiset{b[0]};
        multiset(b[1..]);
      }
      SortedPermutationUnique(a[1..], b[1..]);
    }
  }

  /** Hence any sorted permutation of `s` is `SortLines(s)`. */
  lemma SortLinesCharacterised(s: seq<Line>, r: seq<Line>)
    requires Sorted(r) && multiset(r) == multiset(s)
    ensures r == SortLines(s)
  {
    SortLinesSpec(s);
    SortedPermutationUnique(r, SortLines(s));
  }
}
