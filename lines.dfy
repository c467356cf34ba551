/**
 * Records and lines as the sorter sees them: byte strings ordered the way Go
 * orders `string` values, plus the sequence helpers the other modules share.
 */
module Lines {

  newtype byte = x: int | 0 <= x < 256

  /** One line of a file, without its separator. */
  type Line = seq<byte>

  datatype Option<+T> = None | Some(value: T)

  /** Why a phase of the sort gave up. */
  datatype Error =
    | InputReadError          // a read of the input failed with something other than EOF
    | RunOpenError(run: nat)  // a run file could not be opened
    | RunReadError(run: nat)  // the first batch of a run could not be read
    | OutputError             // the output file could not be created or written

  datatype Result<+T> = Ok(value: T) | Err(error: Error)

  /** Go's `a < b` on strings: byte-wise lexicographic, a proper prefix first. */
  predicate Less(a: Line, b: Line)
  {
    if |a| == 0 then |b| > 0
    else if |b| == 0 then false
    else if a[0] != b[0] then a[0] < b[0]
    else Less(a[1..], b[1..])
  }

  /** The order Go's specification gives for strings: `a` is a proper
      prefix of `b`, or at the first byte where they differ `a`'s is smaller. */
  ghost predicate LexBefore(a: Line, b: Line)
  {
    || (|a| < |b| && a == b[..|a|])
    || exists k :: 0 <= k < |a| && k < |b| && a[..k] == b[..k] && a[k] < b[k]
  }

  /** `Less` is that order. */
  lemma {:induction false} LessLexicographic(a: Line, b: Line)
    ensures Less(a, b) <==> LexBefore(a, b)
  {
    if |a| == 0 || |b| == 0 {
    } else if a[0] != b[0] {
      if a[0] < b[0] {
        assert a[..0] == b[..0];
      }
    } else {
      LessLexicographic(a[1..], b[1..]);
      LexBeforeTail(a, b);
    }
  }

  /** Past an equal first byte, the order is that of the rest. */
  lemma LexBeforeTail(a: Line, b: Line)
    requires |a| > 0 && |b| > 0 && a[0] == b[0]
    ensures LexBefore(a, b) <==> LexBefore(a[1..], b[1..])
  {
    var a', b' := a[1..], b[1..];
    PrefixTail(a, b);
    if k :| 0 <= k < |a'| && k < |b'| && a'[..k] == b'[..k] && a'[k] < b'[k] {
      DiffTail(a, b, k + 1);
    }
    if k :| 0 <= k < |a| && k < |b| && a[..k] == b[..k] && a[k] < b[k] {
      DiffTail(a, b, k);
    }
  }

  /** Past an equal first byte, `a` is a proper prefix of `b` exactly when
      the rest of `a` is one of the rest of `b`. */
  lemma PrefixTail(a: Line, b: Line)
    requires |a| > 0 && |b| > 0 && a[0] == b[0]
    ensures (|a| < |b| && a == b[..|a|]) <==> (|a| - 1 < |b| - 1 && a[1..] == b[1..][..|a| - 1])
  {
    if |a| < |b| {
      assert b[..|a|] == [b[0]] + b[1..][..|a| - 1];
      assert a == [a[0]] + a[1..];
    }
  }

  /** Past an equal first byte, a first difference at `k` is one at `k - 1`
      in the rest. */
  lemma DiffTail(a: Line, b: Line, k: nat)
    requires |a| > 0 && |b| > 0 && a[0] == b[0] && k < |a| && k < |b|
    ensures (a[..k] == b[..k] && a[k] < b[k]) <==>
      (k > 0 && a[1..][..k - 1] == b[1..][..k - 1] && a[1..][k - 1] < b[1..][k - 1])
  {
    if k > 0 {
      assert a[..k] == [a[0]] + a[1..][..k - 1];
      assert b[..k] == [b[0]] + b[1..][..k - 1];
    }
  }

  /** `a <= b` in the same order. */
  predicate Le(a: Line, b: Line)
  {
    !Less(b, a)
  }

  lemma {:induction false} LessIrreflexive(a: Line)
    ensures !Less(a, a)
  {
    if |a| > 0 {
      LessIrreflexive(a[1..]);
    }
  }

  lemma {:induction false} LessTransitive(a: Line, b: Line, c: Line)
    requires Less(a, b) && Less(b, c)
    ensures Less(a, c)
  {
    if |a| > 0 && |b| > 0 && |c| > 0 && a[0] == b[0] && b[0] == c[0] {
      LessTransitive(a[1..], b[1..], c[1..]);
    }
  }

  lemma {:induction false} LessConnected(a: Line, b: Line)
    ensures a == b || Less(a, b) || Less(b, a)
  {
    if |a| > 0 && |b| > 0 && a[0] == b[0] {
      LessConnected(a[1..], b[1..]);
      if a[1..] == b[1..] {
        assert a == [a[0]] + a[1..] && b == [b[0]] + b[1..];
      }
    }
  }

  lemma {:induction false} LessAsymmetric(a: Line, b: Line)
    ensures !(Less(a, b) && Less(b, a))
  {
    if Less(a, b) && Less(b, a) {
      LessTransitive(a, b, a);
      LessIrreflexive(a);
    }
  }

  /** `Le` is a total order: reflexive, antisymmetric, transitive and total. */
  lemma LeTotalOrder(a: Line, b: Line, c: Line)
    ensures Le(a, a)
    ensures Le(a, b) || Le(b, a)
    ensures Le(a, b) && Le(b, a) ==> a == b
    ensures Le(a, b) && Le(b, c) ==> Le(a, c)
  {
    LessIrreflexive(a);
    LessAsymmetric(a, b);
    LessConnected(a, b);
    if Le(a, b) && Le(b, c) {
      LeTransitive(a, b, c);
    }
  }

  lemma LeTransitive(a: Line, b: Line, c: Line)
    requires Le(a, b) && Le(b, c)
    ensures Le(a, c)
  {
    if Less(c, a) {
      LessConnected(a, b);
      LessConnected(b, c);
      if a == b {
      } else if b == c {
      } else {
        LessTransitive(a, b, c);
        LessAsymmetric(a, c);
      }
    }
  }

  lemma LeAntisymmetric(a: Line, b: Line)
    requires Le(a, b) && Le(b, a)
    ensures a == b
  {
    LessConnected(a, b);
  }

  lemma LeTotal(a: Line, b: Line)
    ensures Le(a, b) || Le(b, a)
  {
    LessAsymmetric(a, b);
  }

  /** Ascending order, pairwise. */
  ghost predicate Sorted(s: seq<Line>)
  {
    forall i, j :: 0 <= i < j < |s| ==> Le(s[i], s[j])
  }

  /** Concatenation of a sequence of sequences, in order. */
  function Flatten<T>(ss: seq<seq<T>>): (r: seq<T>)
  {
    if |ss| == 0 then [] else ss[0] + Flatten(ss[1..])
  }

  lemma {:induction false} FlattenConcat<T>(a: seq<seq<T>>, b: seq<seq<T>>)
    ensures Flatten(a + b) == Flatten(a) + Flatten(b)
  {
    if |a| == 0 {
      assert a + b == b;
    } else {
      assert (a + b)[1..] == a[1..] + b;
      FlattenConcat(a[1..], b);
    }
  }

  lemma FlattenAppend<T>(a: seq<seq<T>>, t: seq<T>)
    ensures Flatten(a + [t]) == Flatten(a) + t
  {
    FlattenConcat(a, [t]);
    assert Flatten([t]) == t + Flatten([t][1..]);
  }

  lemma {:induction false} FlattenAllEmpty<T>(ss: seq<seq<T>>)
    requires forall i :: 0 <= i < |ss| ==> ss[i] == []
    ensures Flatten(ss) == []
  {
    if |ss| > 0 {
      FlattenAllEmpty(ss[1..]);
    }
  }

  /** The lines of the first `n` sequences of `ss`, as a multiset. */
  ghost function Bag(ss: seq<seq<Line>>, n: nat): multiset<Line>
    requires n <= |ss|
  {
    if n == 0 then multiset{} else Bag(ss, n - 1) + multiset(ss[n - 1])
  }

  /** Replacing one of the first `n` sequences replaces its part of the bag. */
  lemma {:induction false} BagUpdate(ss: seq<seq<Line>>, n: nat, i: nat, t: seq<Line>)
    requires i < n <= |ss|
    ensures Bag(ss[i := t], n) + multiset(ss[i]) == Bag(ss, n) + multiset(t)
  {
    var tt := ss[i := t];
    if i < n - 1 {
      BagUpdate(ss, n - 1, i, t);
      assert tt[n - 1] == ss[n - 1];
      forall x
        ensures (Bag(tt, n) + multiset(ss[i]))[x] == (Bag(ss, n) + multiset(t))[x]
      {
        assert (Bag(tt, n - 1) + multiset(ss[i]))[x] == (Bag(ss, n - 1) + multiset(t))[x];
      }
    } else {
      BagUpdateLast(ss, n, t);
    }
  }

  /** Replacing the last of the first `n` sequences. */
  lemma BagUpdateLast(ss: seq<seq<Line>>, n: nat, t: seq<Line>)
    requires 0 < n <= |ss|
    ensures Bag(ss[n - 1 := t], n) + multiset(ss[n - 1]) == Bag(ss, n) + multiset(t)
  {
    var tt := ss[n - 1 := t];
    BagPrefix(ss, tt, n - 1);
    assert tt[n - 1] == t;
  }

  /** The bag of the first `n` sequences depends on those alone. */
  lemma {:induction false} BagPrefix(ss: seq<seq<Line>>, tt: seq<seq<Line>>, n: nat)
    requires n <= |ss| && n <= |tt|
    requires forall i :: 0 <= i < n ==> ss[i] == tt[i]
    ensures Bag(ss, n) == Bag(tt, n)
  {
    if n > 0 {
      BagPrefix(ss, tt, n - 1);
    }
  }

  /** The bag of the first `j` sequences is that of the first `i` and that
      of the ones between. */
  lemma BagSlice(ss: seq<seq<Line>>, i: nat, j: nat)
    requires i <= j <= |ss|
    ensures Bag(ss, j) == Bag(ss, i) + Bag(ss[i..j], j - i)
  {
    var front, mid, whole := ss[..i], ss[i..j], ss[..j];
    assert whole == front + mid;
    FlattenConcat(front, mid);
    BagFlatten(front);
    BagFlatten(mid);
    BagFlatten(whole);
    BagPrefix(ss, front, i);
    BagPrefix(ss, whole, j);
    var f, m := Flatten(front), Flatten(mid);
    assert |front| == i && |mid| == j - i && |whole| == j;
    assert Bag(ss, i) == multiset(f) && Bag(mid, j - i) == multiset(m);
    assert Bag(ss, j) == multiset(Flatten(whole)) == multiset(f + m) == multiset(f) + multiset(m);
  }

  /** All sequences empty: the bag is empty. */
  lemma {:induction false} BagAllEmpty(ss: seq<seq<Line>>, n: nat)
    requires n <= |ss|
    requires forall i :: 0 <= i < n ==> ss[i] == []
    ensures Bag(ss, n) == multiset{}
  {
    if n > 0 {
      BagAllEmpty(ss, n - 1);
    }
  }

  /** The bag of all sequences is the multiset of their concatenation. */
  lemma {:induction false} BagFlatten(ss: seq<seq<Line>>)
    ensures Bag(ss, |ss|) == multiset(Flatten(ss))
  {
    if ss != [] {
      var init := ss[..|ss| - 1];
      BagFlatten(init);
      BagPrefix(ss, init, |init|);
      assert ss == init + [ss[|ss| - 1]];
      FlattenAppend(init, ss[|ss| - 1]);
    }
  }

  /** A line is in the bag of the first `n` sequences exactly when one of
      them holds it. */
  lemma {:induction false} BagMember(ss: seq<seq<Line>>, n: nat, x: Line)
    requires n <= |ss|
    ensures x in Bag(ss, n) <==> exists k :: 0 <= k < n && x in ss[k]
  {
    if n > 0 {
      BagMember(ss, n - 1, x);
      assert x in ss[n - 1] <==> x in multiset(ss[n - 1]);
    }
  }

  /** Sequences that each hold at most the lines of their counterparts
      hold at most those lines together. */
  lemma {:induction false} BagShrink(ss: seq<seq<Line>>, tt: seq<seq<Line>>, n: nat)
    requires n <= |ss| && n <= |tt|
    requires forall i :: 0 <= i < n ==> multiset(ss[i]) <= multiset(tt[i])
    ensures Bag(ss, n) <= Bag(tt, n)
  {
    if n > 0 {
      BagShrink(ss, tt, n - 1);
    }
  }

  lemma SortedTail(s: seq<Line>)
    requires Sorted(s) && |s| > 0
    ensures Sorted(s[1..])
  {
  }

  /** Appending an element no smaller than the last keeps a sequence sorted. */
  lemma SortedAppend(s: seq<Line>, x: Line)
    requires Sorted(s)
    requires |s| > 0 ==> Le(s[|s| - 1], x)
    ensures Sorted(s + [x])
  {
    var t := s + [x];
    forall i, j | 0 <= i < j < |t|
      ensures Le(t[i], t[j])
    {
      if j == |s| && i < |s| - 1 {
        LeTransitive(s[i], s[|s| - 1], x);
      }
    }
  }

  /** Sorted with `h` below every element of `t`: `[h] + t` is sorted. */
  lemma SortedCons(h: Line, t: seq<Line>)
    requires Sorted(t)
    requires forall y :: y in t ==> Le(h, y)
    ensures Sorted([h] + t)
  {
    var s := [h] + t;
    forall i, j | 0 <= i < j < |s|
      ensures Le(s[i], s[j])
    {
      if i == 0 {
        assert s[j] == t[j - 1];
      } else {
        assert s[i] == t[i - 1] && s[j] == t[j - 1];
      }
    }
  }

  lemma SortedPrefix(s: seq<Line>, k: nat)
    requires Sorted(s) && k <= |s|
    ensures Sorted(s[..k])
  {
  }
}
