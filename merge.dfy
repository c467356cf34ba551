/**
 * The k-way merge, `mergeChunks`: opens a reader on every run file, seeds the
 * heap with the first line of every non-empty run, then repeatedly takes the
 * smallest line out of the heap, writes it, and replaces it with the next
 * line of the same run.
 */
module Merge {
  import opened Lines
  import opened MinHeap
  import opened Cursor

  /** What each run file's reader can obtain, in the order of the files. */
  function Deliverables(files: seq<RunFile>): (d: seq<seq<Line>>)
    ensures |d| == |files|
  {
    seq(|files|, i requires 0 <= i < |files| => files[i].lines)
  }

  /** Whether the first batch read from `f` meets a read error: the scanner
      stops short of the end before handing out `BufferLines` lines, or the
      last of those lines is the one the error cut. */
  predicate FirstFillFails(f: RunFile)
  {
    f.readFails && (|f.lines| < BufferLines || (f.cutLast && |f.lines| == BufferLines))
  }

  /** In a file read up to a read error, the first batch meets the error
      exactly when it strikes within the first `BufferLines` whole lines,
      whether or not it cuts a line. */
  lemma FirstFillOnDisk(content: seq<Line>, openFails: bool, stop: nat, cut: Line)
    ensures FirstFillFails(OnDisk(content, openFails, stop, cut)) <==> stop < |content| && stop < BufferLines
  {
  }

  /** A run of 9001 lines whose read error cuts line 9000: the batch fills
      up with the cut line, which comes with the error, so opening the run
      fails. */
  lemma CutFirstBatch()
    ensures SetupError([OnDisk(seq(9001, _ => [1, 1]), false, 8999, [1])], 0) == Some(RunReadError(0))
  {
    FirstFillOnDisk(seq(9001, _ => [1, 1]), false, 8999, [1]);
  }

  /** The error of the first file, from the `i`-th on, that cannot be
      opened or whose first batch cannot be read. */
  function SetupError(files: seq<RunFile>, i: nat): Option<Error>
    requires i <= |files|
    decreases |files| - i
  {
    if i == |files| then None
    else if files[i].openFails then Some(RunOpenError(i))
    else if FirstFillFails(files[i]) then Some(RunReadError(i))
    else SetupError(files, i + 1)
  }

  /** Whether `k` is the first file, from the `i`-th on, that fails to open
      or to give its first batch. */
  ghost predicate FirstFailure(files: seq<RunFile>, i: nat, k: nat)
  {
    && i <= k < |files|
    && (files[k].openFails || FirstFillFails(files[k]))
    && forall m :: i <= m < k ==> !files[m].openFails && !FirstFillFails(files[m])
  }

  /** The error the merge reports for file `k`. */
  function FailureAt(files: seq<RunFile>, k: nat): Error
    requires k < |files|
  {
    if files[k].openFails then RunOpenError(k) else RunReadError(k)
  }

  /** Files the program wrote itself never fail to open or to give their
      first batch. */
  lemma WholeFilesOpen(files: seq<RunFile>)
    requires forall j :: 0 <= j < |files| ==> files[j] == WholeFile(files[j].lines)
    ensures SetupError(files, 0) == None
  {
    SetupErrorFirst(files, 0);
  }

  /** There is a setup error exactly when some file fails to open or to
      give its first batch, and it names the first such file. */
  lemma {:induction false} SetupErrorFirst(files: seq<RunFile>, i: nat)
    requires i <= |files|
    ensures SetupError(files, i).None? <==>
      forall k :: i <= k < |files| ==> !files[k].openFails && !FirstFillFails(files[k])
    ensures SetupError(files, i).Some? ==>
      exists k :: FirstFailure(files, i, k) && SetupError(files, i).value == FailureAt(files, k)
    decreases |files| - i
  {
    if i < |files| && !files[i].openFails && !FirstFillFails(files[i]) {
      SetupErrorFirst(files, i + 1);
      if SetupError(files, i + 1).Some? {
        var k :| FirstFailure(files, i + 1, k) && SetupError(files, i + 1).value == FailureAt(files, k);
        assert FirstFailure(files, i, k);
      }
    } else if i < |files| {
      assert FirstFailure(files, i, i);
    }
  }

  /** `s` without its first element, if any. */
  function Tail(s: seq<Line>): seq<Line>
  {
    if s == [] then [] else s[1..]
  }

  /** The heap item for a run with remaining lines `s`: its first line,
      tagged with the run's index `k`, if it has one. */
  ghost function HeadOf(s: seq<Line>, k: nat): multiset<HeapItem>
  {
    if s == [] then multiset{} else multiset{HeapItem(s[0], k)}
  }

  /** The items the heap should hold for the remaining lines `rem` of the
      first `n` runs: the first remaining line of every non-empty run,
      tagged with the run's index. */
  ghost function Heads(rem: seq<seq<Line>>, n: nat): multiset<HeapItem>
    requires n <= |rem|
  {
    if n == 0 then multiset{} else Heads(rem, n - 1) + HeadOf(rem[n - 1], n - 1)
  }

  /** Every item of `Heads` is the first line of its run. */
  lemma {:induction false} HeadsMember(rem: seq<seq<Line>>, n: nat, x: HeapItem)
    requires n <= |rem| && x in Heads(rem, n)
    ensures x.index < n && rem[x.index] != [] && x.value == rem[x.index][0]
  {
    if x !in Heads(rem, n - 1) {
    } else {
      HeadsMember(rem, n - 1, x);
    }
  }

  /** The first line of every non-empty run is in `Heads`. */
  lemma {:induction false} HeadsContains(rem: seq<seq<Line>>, n: nat, j: nat)
    requires j < n <= |rem| && rem[j] != []
    ensures HeapItem(rem[j][0], j) in Heads(rem, n)
  {
    if j < n - 1 {
      HeadsContains(rem, n - 1, j);
    }
  }

  /** No heads: every run is exhausted. */
  lemma {:induction false} HeadsEmpty(rem: seq<seq<Line>>, n: nat)
    requires n <= |rem| && Heads(rem, n) == multiset{}
    ensures forall j :: 0 <= j < n ==> rem[j] == []
  {
    forall j | 0 <= j < n
      ensures rem[j] == []
    {
      if rem[j] != [] {
        HeadsContains(rem, n, j);
      }
    }
  }

  /** `Heads` holds each run's first line once, and nothing else. */
  lemma {:induction false} HeadsCount(rem: seq<seq<Line>>, n: nat, x: HeapItem)
    requires n <= |rem|
    ensures Heads(rem, n)[x] == if x.index < n && rem[x.index] != [] && x.value == rem[x.index][0] then 1 else 0
  {
    if n > 0 {
      HeadsCount(rem, n - 1, x);
    }
  }

  /** Replacing what is left of run `i` by `t` replaces its head. */
  lemma HeadsUpdate(rem: seq<seq<Line>>, n: nat, i: nat, t: seq<Line>)
    requires i < n <= |rem|
    ensures Heads(rem[i := t], n) + HeadOf(rem[i], i) == Heads(rem, n) + HeadOf(t, i)
  {
    forall x
      ensures (Heads(rem[i := t], n) + HeadOf(rem[i], i))[x] == (Heads(rem, n) + HeadOf(t, i))[x]
    {
      HeadsCount(rem[i := t], n, x);
      HeadsCount(rem, n, x);
    }
  }

  /** Every remaining run is in ascending order. */
  ghost predicate AllSorted(rem: seq<seq<Line>>)
  {
    forall j :: 0 <= j < |rem| ==> Sorted(rem[j])
  }

  /** `v` is no larger than any remaining line. */
  ghost predicate Above(v: Line, rem: seq<seq<Line>>)
  {
    forall j, k :: 0 <= j < |rem| && 0 <= k < |rem[j]| ==> Le(v, rem[j][k])
  }

  /** The remaining lines once the first line of run `i` is written. */
  function Advance(rem: seq<seq<Line>>, i: nat): (rem': seq<seq<Line>>)
    requires i < |rem| && rem[i] != []
    ensures |rem'| == |rem|
  {
    rem[i := rem[i][1..]]
  }

  /**
   * The order argument of one merge step: the item taken out of the heap is
   * no larger than the items left in it, each of which heads a sorted run,
   * so it is no larger than any line still to come, and writing it keeps
   * the output sorted.
   */
  lemma MergeStepOrder(rem: seq<seq<Line>>, items: seq<HeapItem>, x: HeapItem, out: seq<Line>)
    requires AllSorted(rem) && Sorted(out) && (out != [] ==> Above(out[|out| - 1], rem))
    requires multiset(items) + multiset{x} == Heads(rem, |rem|)
    requires forall k :: 0 <= k < |items| ==> Le(x.value, items[k].value)
    requires x.index < |rem| && rem[x.index] != [] && x.value == rem[x.index][0]
    ensures AllSorted(Advance(rem, x.index))
    ensures Sorted(out + [x.value]) && Above(x.value, Advance(rem, x.index))
  {
    var i := x.index;
    var rem' := Advance(rem, i);
    if out != [] {
      assert Le(out[|out| - 1], rem[i][0]);
    }
    SortedAppend(out, x.value);
    forall j, k | 0 <= j < |rem'| && 0 <= k < |rem'[j]|
      ensures Le(x.value, rem'[j][k])
    {
      if j == i {
        assert rem'[j][k] == rem[i][k + 1];
      } else {
        HeadsContains(rem, |rem|, j);
        var y := HeapItem(rem[j][0], j);
        assert y in multiset(items);
        var m :| 0 <= m < |items| && items[m] == y;
        if k > 0 {
          LeTransitive(x.value, rem[j][0], rem[j][k]);
        }
      }
    }
    SortedTail(rem[i]);
  }

  /** Reader `r` is valid, is number `k`, and will still hand out `p`. */
  ghost predicate Holds(r: ChunkReader, k: nat, p: seq<Line>)
    reads r
  {
    r.index == k && r.Valid() && r.Pending() == p
  }

  /** Reader `r` has an empty buffer only when it has nothing left to hand
      out, as after its first batch. */
  ghost predicate Ready(r: ChunkReader)
    reads r
  {
    r.Valid() && (r.buffer == [] ==> r.Pending() == [])
  }

  /** Reader `k` will still hand out `pend[k]`. Readers at different
      positions have different numbers, so they are different objects. */
  ghost predicate Tracks(readers: seq<ChunkReader>, pend: seq<seq<Line>>)
    reads readers
  {
    |readers| == |pend| && forall k :: 0 <= k < |readers| ==> Holds(readers[k], k, pend[k])
  }

  /** Every reader from the `j`-th on is ready. */
  ghost predicate AllReady(readers: seq<ChunkReader>, j: nat)
    reads readers
  {
    forall k :: j <= k < |readers| ==> Ready(readers[k])
  }

  /** One pass of the opening loop over a file that opens: a fresh reader
      numbered `i` reads its first batch, and the result says whether that
      met a read error. */
  method OpenOne(f: RunFile, i: nat) returns (r: ChunkReader, failed: bool)
    ensures fresh(r)
    ensures failed == FirstFillFails(f)
    ensures Holds(r, i, f.lines) && Ready(r)
  {
    r := new ChunkReader(f, i);
    failed := r.FillBuffer(BufferLines);
  }

  /**
   * The opening loop of `mergeChunks`: opens every file in order and reads
   * its first batch, stopping at the first file that cannot be opened or
   * whose first batch meets a read error. On success every reader holds its
   * first batch, empty only when the run is.
   */
  method OpenReaders(files: seq<RunFile>) returns (readers: seq<ChunkReader>, err: Option<Error>)
    ensures err == SetupError(files, 0)
    ensures err.None? ==> Tracks(readers, Deliverables(files)) && AllReady(readers, 0)
    ensures err.None? ==> forall k :: 0 <= k < |readers| ==> fresh(readers[k])
  {
    ghost var dels := Deliverables(files);
    readers := [];
    var i := 0;
    while i < |files|
      invariant 0 <= i <= |files| && |readers| == i
      invariant SetupError(files, 0) == SetupError(files, i)
      invariant forall k :: 0 <= k < i ==> fresh(readers[k])
      invariant forall k :: 0 <= k < i ==> Holds(readers[k], k, dels[k]) && Ready(readers[k])
    {
      if files[i].openFails {
        return readers, Some(RunOpenError(i));
      }
      var r, failed := OpenOne(files[i], i);
      if failed {
        return readers, Some(RunReadError(i));
      }
      readers := readers + [r];
      i := i + 1;
    }
    err := None;
  }

  /**
   * One pass of the seeding loop: if reader `j` has a line in its buffer,
   * moves it into the heap. `p` is what the reader then still holds.
   */
  method SeedOne(readers: seq<ChunkReader>, h: MinHeapBuffered, j: nat,
                 ghost pend: seq<seq<Line>>, ghost p: seq<Line>)
    requires Tracks(readers, pend) && AllReady(readers, j) && HeapOrdered(h.items)
    requires j < |readers| && p == Tail(pend[j])
    modifies readers[j], h
    ensures Tracks(readers, pend[j := p]) && AllReady(readers, j + 1) && HeapOrdered(h.items)
    ensures multiset(h.items) == old(multiset(h.items)) + HeadOf(pend[j], j)
  {
    var r := readers[j];
    if |r.buffer| > 0 {
      h.HeapPush(HeapItem(r.buffer[0], r.index));
    }
    var _ := r.TakeHead();
    forall k | 0 <= k < |readers| && k != j
      ensures Holds(readers[k], k, pend[k]) && (j < k ==> Ready(readers[k]))
    {
      assert readers[k] != r;
    }
  }

  /** What the readers hold when the first `j` have given their first line
      to the heap. */
  ghost function SeedView(dels: seq<seq<Line>>, j: nat): (v: seq<seq<Line>>)
    requires j <= |dels|
    ensures |v| == |dels|
  {
    if j == 0 then dels else SeedView(dels, j - 1)[j - 1 := Tail(dels[j - 1])]
  }

  /** Reader `k` holds the rest of its run once it has given its first line,
      and all of it before. */
  lemma {:induction false} SeedViewAt(dels: seq<seq<Line>>, j: nat, k: nat)
    requires j <= |dels| && k < |dels|
    ensures SeedView(dels, j)[k] == if k < j then Tail(dels[k]) else dels[k]
  {
    if j > 0 {
      SeedViewAt(dels, j - 1, k);
    }
  }

  /** After the seeding loop each reader holds the rest of its run. */
  lemma SeedDone(dels: seq<seq<Line>>)
    ensures TailsOf(SeedView(dels, |dels|), dels)
  {
    forall k | 0 <= k < |dels|
      ensures SeedView(dels, |dels|)[k] == Tail(dels[k])
    {
      SeedViewAt(dels, |dels|, k);
    }
  }

  /**
   * The seeding loop of `mergeChunks`: every reader with a non-empty buffer
   * gives its first line to the heap. Afterwards the heap holds exactly the
   * first line of every non-empty run, and each reader the rest of its run.
   */
  method SeedHeap(readers: seq<ChunkReader>, h: MinHeapBuffered, ghost dels: seq<seq<Line>>)
    returns (ghost pend: seq<seq<Line>>)
    requires Tracks(readers, dels) && AllReady(readers, 0) && h.items == []
    modifies readers, h
    ensures HeapOrdered(h.items) && multiset(h.items) == Heads(dels, |dels|)
    ensures Tracks(readers, pend) && TailsOf(pend, dels)
  {
    var j := 0;
    while j < |readers|
      invariant j <= |dels|
      invariant Tracks(readers, SeedView(dels, j)) && AllReady(readers, j) && HeapOrdered(h.items)
      invariant multiset(h.items) == Heads(dels, j)
    {
      SeedViewAt(dels, j, j);
      SeedOne(readers, h, j, SeedView(dels, j), Tail(dels[j]));
      j := j + 1;
    }
    pend := SeedView(dels, |dels|);
    SeedDone(dels);
  }

  /** `pend[k]` is what reader `k` still holds once the first line of
      `rem[k]`, if any, is in the heap. */
  ghost predicate TailsOf(pend: seq<seq<Line>>, rem: seq<seq<Line>>)
  {
    |pend| == |rem| && forall k :: 0 <= k < |rem| ==> pend[k] == Tail(rem[k])
  }

  /**
   * What the main loop keeps, in terms of the runs' lines alone: `rem[k]`
   * is what is left of run `k` of `rem0`, the heap holds the first line of
   * each, the output and what is left together are the original lines, and
   * if the runs are sorted then so is the output, and every line left is at
   * least the last one written.
   */
  ghost predicate MergeState(rem0: seq<seq<Line>>, rem: seq<seq<Line>>, pend: seq<seq<Line>>,
                             out: seq<Line>, heap: multiset<HeapItem>, sorted: bool)
  {
    && |rem| == |rem0| && TailsOf(pend, rem)
    && heap == Heads(rem, |rem|)
    && multiset(out) + Bag(rem, |rem|) == Bag(rem0, |rem0|)
    && (sorted ==> AllSorted(rem) && Sorted(out) && (out != [] ==> Above(out[|out| - 1], rem)))
  }

  /** Writing the first line of run `i` keeps `pend` the tails of `rem`,
      given that reader `i` handed out `next` and kept `p`. */
  lemma StepTails(rem: seq<seq<Line>>, pend: seq<seq<Line>>, i: nat, next: Option<Line>, p: seq<Line>)
    requires TailsOf(pend, rem) && i < |rem| && rem[i] != []
    requires next.None? <==> pend[i] == []
    requires pend[i] == (if next.Some? then [next.value] else []) + p
    ensures TailsOf(pend[i := p], Advance(rem, i))
    ensures HeadOf(rem[i][1..], i) == if next.Some? then multiset{HeapItem(next.value, i)} else multiset{}
  {
    var rem' := Advance(rem, i);
    if next.Some? {
      assert rem[i][1..][0] == next.value;
      assert p == Tail(rem'[i]);
    } else {
      assert p == [] && rem'[i] == [];
    }
  }

  /** Writing the first line `x` of run `i` takes one line out of what is
      left and puts it in the output. */
  lemma StepBag(rem0: seq<seq<Line>>, rem: seq<seq<Line>>, out: seq<Line>, i: nat, x: Line)
    requires |rem| == |rem0| && i < |rem| && rem[i] != [] && x == rem[i][0]
    requires multiset(out) + Bag(rem, |rem|) == Bag(rem0, |rem0|)
    ensures multiset(out + [x]) + Bag(Advance(rem, i), |rem|) == Bag(rem0, |rem0|)
    ensures |Bag(Advance(rem, i), |rem|)| < |Bag(rem, |rem|)|
  {
    var n, t, a := |rem|, rem[i][1..], Advance(rem, i);
    BagUpdate(rem, n, i, t);
    assert rem[i] == [x] + t;
    assert Bag(a, n) + multiset{x} == Bag(rem, n) by {
      forall y
        ensures (Bag(a, n) + multiset{x})[y] == Bag(rem, n)[y]
      {
        assert (Bag(a, n) + multiset(rem[i]))[y] == (Bag(rem, n) + multiset(t))[y];
      }
    }
    assert multiset(out + [x]) == multiset(out) + multiset{x};
  }

  /** Writing the first line of run `i` replaces its heap item by the next one. */
  lemma StepHeads(rem: seq<seq<Line>>, items: seq<HeapItem>, x: HeapItem, next: multiset<HeapItem>)
    requires x.index < |rem| && rem[x.index] != [] && x.value == rem[x.index][0]
    requires multiset(items) + multiset{x} == Heads(rem, |rem|)
    requires HeadOf(rem[x.index][1..], x.index) == next
    ensures Heads(Advance(rem, x.index), |rem|) == multiset(items) + next
  {
    var n, i, a := |rem|, x.index, Advance(rem, x.index);
    HeadsUpdate(rem, n, i, rem[i][1..]);
    assert HeadOf(rem[i], i) == multiset{x};
    forall y
      ensures Heads(a, n)[y] == (multiset(items) + next)[y]
    {
      assert (Heads(a, n) + HeadOf(rem[i], i))[y] == (Heads(rem, n) + next)[y];
    }
  }

  /**
   * One pass of the main loop on the runs' lines: `x` is the smallest item
   * of the heap, `next` what its reader hands out after it, and `p` what the
   * reader then still holds. Writing `x` keeps the merge state and leaves
   * fewer lines to write.
   */
  lemma DrainStep(rem0: seq<seq<Line>>, rem: seq<seq<Line>>, pend: seq<seq<Line>>, out: seq<Line>,
                  items: seq<HeapItem>, x: HeapItem, sorted: bool, next: Option<Line>, p: seq<Line>)
    requires MergeState(rem0, rem, pend, out, multiset(items) + multiset{x}, sorted)
    requires forall k :: 0 <= k < |items| ==> Le(x.value, items[k].value)
    requires x.index < |rem|
    requires next.None? <==> pend[x.index] == []
    requires pend[x.index] == (if next.Some? then [next.value] else []) + p
    ensures rem[x.index] != []
    ensures MergeState(rem0, Advance(rem, x.index), pend[x.index := p], out + [x.value],
      multiset(items) + (if next.Some? then multiset{HeapItem(next.value, x.index)} else multiset{}), sorted)
    ensures |Bag(Advance(rem, x.index), |rem|)| < |Bag(rem, |rem|)|
  {
    assert x in Heads(rem, |rem|);
    HeadsMember(rem, |rem|, x);
    StepTails(rem, pend, x.index, next, p);
    StepHeads(rem, items, x, if next.Some? then multiset{HeapItem(next.value, x.index)} else multiset{});
    StepBag(rem0, rem, out, x.index, x.value);
    if sorted {
      MergeStepOrder(rem, items, x, out);
    }
  }

  /** An empty heap: the output is all the lines, sorted if the runs were. */
  lemma DrainDone(rem0: seq<seq<Line>>, rem: seq<seq<Line>>, pend: seq<seq<Line>>, out: seq<Line>, sorted: bool)
    requires MergeState(rem0, rem, pend, out, multiset{}, sorted)
    ensures multiset(out) == Bag(rem0, |rem0|)
    ensures sorted ==> Sorted(out)
  {
    HeadsEmpty(rem, |rem|);
    BagAllEmpty(rem, |rem|);
  }

  /**
   * The step of the main loop after the smallest item, from reader `i`, is
   * written: the reader refills its buffer if it is empty and hands out its
   * next line, which goes into the heap. `next` is that line, if any, and
   * `p` what the reader then still holds.
   */
  method Refill(readers: seq<ChunkReader>, h: MinHeapBuffered, i: nat, ghost pend: seq<seq<Line>>)
    returns (next: Option<Line>, ghost p: seq<Line>)
    requires Tracks(readers, pend) && HeapOrdered(h.items) && i < |readers|
    modifies readers[i], h
    ensures Tracks(readers, pend[i := p]) && HeapOrdered(h.items)
    ensures next.None? <==> pend[i] == []
    ensures pend[i] == (if next.Some? then [next.value] else []) + p
    ensures multiset(h.items) == old(multiset(h.items))
      + (if next.Some? then multiset{HeapItem(next.value, i)} else multiset{})
  {
    var r := readers[i];
    next := r.Next();
    p := r.Pending();
    forall k | 0 <= k < |readers| && k != i
      ensures Holds(readers[k], k, pend[k])
    {
      assert readers[k] != r;
    }
    if next.Some? {
      h.HeapPush(HeapItem(next.value, r.index));
    }
  }

  /**
   * One pass of the main loop of `mergeChunks`: pops the smallest item,
   * writes its line, and pushes the next line of the same run, refilling
   * that run's buffer first when it is empty. `rem'` and `pend'` are what is
   * then left of the runs and of the readers.
   */
  method DrainOne(readers: seq<ChunkReader>, h: MinHeapBuffered, ghost rem0: seq<seq<Line>>,
                  ghost rem: seq<seq<Line>>, ghost pend: seq<seq<Line>>, ghost out: seq<Line>, ghost sorted: bool)
    returns (line: Line, ghost rem': seq<seq<Line>>, ghost pend': seq<seq<Line>>)
    requires Tracks(readers, pend) && HeapOrdered(h.items) && h.items != []
    requires MergeState(rem0, rem, pend, out, multiset(h.items), sorted)
    modifies readers, h
    ensures Tracks(readers, pend') && HeapOrdered(h.items)
    ensures MergeState(rem0, rem', pend', out + [line], multiset(h.items), sorted)
    ensures |rem'| == |rem| && |Bag(rem', |rem|)| < |Bag(rem, |rem|)|
  {
    var item := h.HeapPop();
    ghost var items := h.items;
    assert item in Heads(rem, |rem|);
    HeadsMember(rem, |rem|, item);
    var next, p := Refill(readers, h, item.index, pend);
    DrainStep(rem0, rem, pend, out, items, item, sorted, next, p);
    line := item.value;
    rem' := Advance(rem, item.index);
    pend' := pend[item.index := p];
  }

  /**
   * The main loop of `mergeChunks`: while the heap is not empty, writes its
   * smallest line and replaces it by the next line of the same run. Writes
   * every remaining line exactly once, in ascending order when every run is.
   */
  method Drain(readers: seq<ChunkReader>, h: MinHeapBuffered,
               ghost rem0: seq<seq<Line>>, ghost pend0: seq<seq<Line>>)
    returns (out: seq<Line>)
    requires Tracks(readers, pend0) && TailsOf(pend0, rem0)
    requires HeapOrdered(h.items) && multiset(h.items) == Heads(rem0, |rem0|)
    modifies readers, h
    ensures multiset(out) == Bag(rem0, |rem0|)
    ensures AllSorted(rem0) ==> Sorted(out)
  {
    out := [];
    ghost var rem := rem0;
    ghost var pend := pend0;
    ghost var sorted := AllSorted(rem0);
    while h.Len() > 0
      invariant Tracks(readers, pend) && HeapOrdered(h.items)
      invariant MergeState(rem0, rem, pend, out, multiset(h.items), sorted)
      decreases |Bag(rem, |rem|)|
    {
      var line;
      line, rem, pend := DrainOne(readers, h, rem0, rem, pend, out, sorted);
      out := out + [line];
    }
    DrainDone(rem0, rem, pend, out, sorted);
  }

  /**
   * `mergeChunks` over an explicit list of run files. Opening a file or
   * reading its first batch can fail, and so can creating the output; the
   * first such failure is the result. Otherwise the output holds every line
   * the readers can obtain, each exactly once, and is in ascending order
   * when every run delivers its lines in ascending order. A read error after
   * the first batch is swallowed: the run ends there, after the line the
   * error cut, if any, which is written like any other.
   */
  method MergeChunks(files: seq<RunFile>, outputFails: bool) returns (res: Result<seq<Line>>)
    ensures res.Err? <==> SetupError(files, 0).Some? || outputFails
    ensures SetupError(files, 0).Some? ==> res == Err(SetupError(files, 0).value)
    ensures SetupError(files, 0).None? && outputFails ==> res == Err(OutputError)
    ensures res.Ok? ==> multiset(res.value) == Bag(Deliverables(files), |files|)
    ensures res.Ok? && (forall i :: 0 <= i < |files| ==> Sorted(files[i].lines)) ==> Sorted(res.value)
  {
    ghost var dels := Deliverables(files);
    var readers, err := OpenReaders(files);
    if err.Some? {
      return Err(err.value);
    }
    var h := new MinHeapBuffered();
    ghost var pend := SeedHeap(readers, h, dels);
    if outputFails {
      return Err(OutputError);
    }
    var out := Drain(readers, h, dels, pend);
    return Ok(out);
  }
}
