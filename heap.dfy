/**
 * The priority queue of the merge: `minHeapBuffered`, a slice of items that
 * `Push` grows and `Pop` shrinks in place, ordered by `Less` on the item's
 * value. The merge drives it through `container/heap`, whose `Push`, `Pop`,
 * `up` and `down` are written out here as `HeapPush`, `HeapPop`, `SiftUp`
 * and `SiftDown` over the same `Len`/`Less`/`Swap`/`Push`/`Pop` calls.
 */
module MinHeap {
  import opened Lines

  /** A line waiting in the heap and the index of the run it came from. */
  datatype HeapItem = HeapItem(value: Line, index: nat)

  /** The heap position above `k`: `(k - 1) / 2`. */
  function Parent(k: nat): (p: nat)
    requires k > 0
    ensures p < k && (k == 2 * p + 1 || k == 2 * p + 2)
  {
    (k - 1) / 2
  }

  /** No item is smaller than the one above it. */
  ghost predicate HeapOrdered(a: seq<HeapItem>)
  {
    forall k :: 0 < k < |a| ==> Le(a[Parent(k)].value, a[k].value)
  }

  /** Heap order, except that the item at `j` may be smaller than the one
      above it; the one above it is still no larger than `j`'s children. */
  ghost predicate HoleUp(a: seq<HeapItem>, j: nat)
  {
    && j < |a|
    && (forall k :: 0 < k < |a| && k != j ==> Le(a[Parent(k)].value, a[k].value))
    && (forall k :: 0 < k < |a| && Parent(k) == j && j > 0 ==> Le(a[Parent(j)].value, a[k].value))
  }

  /** Heap order on the first `n` items, except that the item at `i` may be
      larger than its children; the one above `i` is still no larger than
      them. */
  ghost predicate HoleDown(a: seq<HeapItem>, n: nat, i: nat)
  {
    && n <= |a|
    && (forall k :: 0 < k < n && Parent(k) != i ==> Le(a[Parent(k)].value, a[k].value))
    && (forall k :: 0 < k < n && Parent(k) == i && i > 0 ==> Le(a[Parent(i)].value, a[k].value))
  }

  /** The first item of a heap-ordered sequence is no larger than any item. */
  lemma {:induction false} RootIsMin(a: seq<HeapItem>, k: nat)
    requires HeapOrdered(a) && k < |a|
    ensures Le(a[0].value, a[k].value)
    decreases k
  {
    if k == 0 {
      LeTotalOrder(a[0].value, a[0].value, a[0].value);
    } else {
      RootIsMin(a, Parent(k));
      LeTransitive(a[0].value, a[Parent(k)].value, a[k].value);
    }
  }

  /** An item no larger than every item of `a` is no larger than every item
      of a sub-multiset of `a`. */
  lemma BelowAll(x: Line, a: seq<HeapItem>, b: seq<HeapItem>)
    requires forall k :: 0 <= k < |a| ==> Le(x, a[k].value)
    requires multiset(b) <= multiset(a)
    ensures forall k :: 0 <= k < |b| ==> Le(x, b[k].value)
  {
    forall k | 0 <= k < |b|
      ensures Le(x, b[k].value)
    {
      assert b[k] in multiset(b);
      assert b[k] in multiset(a);
      var m :| 0 <= m < |a| && a[m] == b[k];
    }
  }

  /** Appending an item to a heap-ordered sequence leaves only the new item
      out of place. */
  lemma PushHole(a: seq<HeapItem>, x: HeapItem)
    requires HeapOrdered(a)
    ensures HoleUp(a + [x], |a|)
  {
    var b := a + [x];
    forall k | 0 < k < |b| && k != |a|
      ensures Le(b[Parent(k)].value, b[k].value)
    {
      assert b[k] == a[k] && b[Parent(k)] == a[Parent(k)];
    }
  }

  /** Swapping an out-of-place item with the one above it moves the hole up. */
  lemma UpStep(a: seq<HeapItem>, j: nat)
    requires HoleUp(a, j) && j > 0
    requires Less(a[j].value, a[Parent(j)].value)
    ensures HoleUp(a[Parent(j) := a[j]][j := a[Parent(j)]], Parent(j))
  {
    var i := Parent(j);
    var b := a[i := a[j]][j := a[i]];
    LessAsymmetric(a[j].value, a[i].value);
    forall k | 0 < k < |b| && k != i
      ensures Le(b[Parent(k)].value, b[k].value)
    {
      var p := Parent(k);
      if k == j {
      } else if p == j {
        // a child of j: it now sits under the old parent of j
      } else if p == i {
        // the sibling of j: it now sits under the old item at j
        LeTransitive(a[j].value, a[i].value, a[k].value);
      } else {
        assert b[k] == a[k] && b[p] == a[p];
      }
    }
    forall k | 0 < k < |b| && Parent(k) == i && i > 0
      ensures Le(b[Parent(i)].value, b[k].value)
    {
      assert b[Parent(i)] == a[Parent(i)];
      if k != j {
        LeTransitive(a[Parent(i)].value, a[i].value, a[k].value);
      }
    }
  }

  /** A hole that needs no more moving is no hole. */
  lemma UpDone(a: seq<HeapItem>, j: nat)
    requires HoleUp(a, j)
    requires j == 0 || Le(a[Parent(j)].value, a[j].value)
    ensures HeapOrdered(a)
  {
  }

  /** Swapping an out-of-place item with its smaller child moves the hole
      down. */
  lemma DownStep(a: seq<HeapItem>, n: nat, i: nat, j: nat)
    requires HoleDown(a, n, i) && 2 * i + 1 < n
    requires || (j == 2 * i + 1 && (2 * i + 2 < n ==> !Less(a[2 * i + 2].value, a[2 * i + 1].value)))
             || (j == 2 * i + 2 && j < n && Less(a[2 * i + 2].value, a[2 * i + 1].value))
    requires Less(a[j].value, a[i].value)
    ensures HoleDown(a[i := a[j]][j := a[i]], n, j)
  {
    var b := a[i := a[j]][j := a[i]];
    LessAsymmetric(a[j].value, a[i].value);
    LessIrreflexive(a[j].value);
    if j == 2 * i + 2 {
      LessAsymmetric(a[2 * i + 2].value, a[2 * i + 1].value);
    }
    assert Parent(j) == i;
    forall k | 0 < k < n && Parent(k) != j
      ensures Le(b[Parent(k)].value, b[k].value)
    {
      var p := Parent(k);
      if k == j {
      } else if p == i {
        // the sibling of j: no smaller than j, which now sits at i
      } else if k == i {
        // the old parent of i was no larger than i's children
      } else {
        assert b[k] == a[k] && b[p] == a[p];
      }
    }
    forall k | 0 < k < n && Parent(k) == j && j > 0
      ensures Le(b[Parent(j)].value, b[k].value)
    {
      assert b[k] == a[k];
    }
  }

  /** A hole with no larger child is no hole. */
  lemma DownDone(a: seq<HeapItem>, n: nat, i: nat)
    requires HoleDown(a, n, i)
    requires 2 * i + 1 < n ==> Le(a[i].value, a[2 * i + 1].value)
    requires 2 * i + 2 < n ==> Le(a[i].value, a[2 * i + 2].value)
    ensures HeapOrdered(a[..n])
  {
    var b := a[..n];
    forall k | 0 < k < |b|
      ensures Le(b[Parent(k)].value, b[k].value)
    {
      assert b[k] == a[k] && b[Parent(k)] == a[Parent(k)];
    }
  }

  /** `minHeapBuffered`: the slice of items, changed in place. */
  class MinHeapBuffered {
    var items: seq<HeapItem>

    /** `&minHeapBuffered{}` followed by `heap.Init`, which has nothing to
        reorder in an empty heap. */
    constructor ()
      ensures items == []
    {
      items := [];
    }

    function Len(): (n: nat)
      reads this
      ensures n == |items|
    {
      |items|
    }

    /** Compares the values at `i` and `j`: byte-wise, as Go's `<` on strings. */
    predicate Less(i: nat, j: nat)
      reads this
      requires i < |items| && j < |items|
    {
      Lines.Less(items[i].value, items[j].value)
    }

    method Swap(i: nat, j: nat)
      requires i < |items| && j < |items|
      modifies this
      ensures items == old(items)[i := old(items)[j]][j := old(items)[i]]
      ensures multiset(items) == multiset(old(items))
    {
      items := items[i := items[j]][j := items[i]];
    }

    /** Appends `x` at the end. */
    method Push(x: HeapItem)
      modifies this
      ensures items == old(items) + [x]
    {
      items := items + [x];
    }

    /** Removes and returns the last item. */
    method Pop() returns (x: HeapItem)
      requires |items| > 0
      modifies this
      ensures x == old(items)[|old(items)| - 1]
      ensures items == old(items)[..|old(items)| - 1]
    {
      var n := |items|;
      x := items[n - 1];
      items := items[..n - 1];
    }

    /** `up`: moves the item at `j0` towards the root until the one above
        it is no larger. */
    method SiftUp(j0: nat)
      requires HoleUp(items, j0)
      modifies this
      ensures HeapOrdered(items)
      ensures multiset(items) == multiset(old(items))
      ensures |items| == |old(items)|
    {
      var j: nat := j0;
      while true
        invariant HoleUp(items, j)
        invariant multiset(items) == multiset(old(items))
        invariant |items| == |old(items)|
        decreases j
      {
        var i: nat := if j == 0 then 0 else Parent(j);  // Go's (j - 1) / 2 truncates to 0 at the root
        if i == j || !Less(j, i) {
          UpDone(items, j);
          break;
        }
        UpStep(items, j);
        Swap(i, j);
        j := i;
      }
    }

    /** `down`: moves the item at `i0` towards the leaves of the first `n`
        items until no child is smaller; the items from `n` on stay put. */
    method SiftDown(i0: nat, n: nat)
      requires i0 <= n && HoleDown(items, n, i0)
      modifies this
      ensures |items| == |old(items)| && items[n..] == old(items)[n..]
      ensures HeapOrdered(items[..n])
      ensures multiset(items) == multiset(old(items))
    {
      var i: nat := i0;
      while true
        invariant i <= n && HoleDown(items, n, i)
        invariant multiset(items) == multiset(old(items))
        invariant |items| == |old(items)| && items[n..] == old(items)[n..]
        decreases n - i
      {
        var j1 := 2 * i + 1;
        if j1 >= n {
          DownDone(items, n, i);
          break;
        }
        var j := j1;
        var j2 := j1 + 1;
        if j2 < n && Less(j2, j1) {
          j := j2;
        }
        if !Less(j, i) {
          ghost var a := items;
          if j2 < n {
            if j == j2 {
              LessAsymmetric(a[j2].value, a[j1].value);
              LeTransitive(a[i].value, a[j2].value, a[j1].value);
            } else {
              LeTransitive(a[i].value, a[j1].value, a[j2].value);
            }
          }
          DownDone(items, n, i);
          break;
        }
        DownStep(items, n, i, j);
        Swap(i, j);
        i := j;
      }
    }

    /** `heap.Push`: adds `x` and restores heap order. */
    method HeapPush(x: HeapItem)
      requires HeapOrdered(items)
      modifies this
      ensures HeapOrdered(items)
      ensures multiset(items) == multiset(old(items)) + multiset{x}
      ensures |items| == |old(items)| + 1
    {
      PushHole(items, x);
      Push(x);
      SiftUp(Len() - 1);
    }

    /** `heap.Pop`: removes and returns an item no larger than any other,
        keeping the rest in heap order. */
    method HeapPop() returns (x: HeapItem)
      requires |items| > 0 && HeapOrdered(items)
      modifies this
      ensures HeapOrdered(items)
      ensures multiset(items) + multiset{x} == multiset(old(items))
      ensures forall k :: 0 <= k < |items| ==> Le(x.value, items[k].value)
      ensures |items| == |old(items)| - 1
    {
      var n := Len() - 1;
      forall k | 0 <= k < |items|
        ensures Le(items[0].value, items[k].value)
      {
        RootIsMin(items, k);
      }
      ghost var before := items;
      Swap(0, n);
      ghost var swapped := items;
      DownHoleAtRoot(before, n);
      SiftDown(0, n);
      assert items[n] == swapped[n] == before[0];
      assert items == items[..n] + [items[n]];
      x := Pop();
      BelowAll(x.value, before, items);
    }
  }

  /** Moving the last item of a heap-ordered sequence to the root leaves a
      hole at the root of the first `n` items. */
  lemma DownHoleAtRoot(a: seq<HeapItem>, n: nat)
    requires HeapOrdered(a) && n + 1 == |a|
    ensures HoleDown(a[0 := a[n]][n := a[0]], n, 0)
  {
    var b := a[0 := a[n]][n := a[0]];
    forall k | 0 < k < n && Parent(k) != 0
      ensures Le(b[Parent(k)].value, b[k].value)
    {
      assert b[k] == a[k] && b[Parent(k)] == a[Parent(k)];
    }
  }
}
