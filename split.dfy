/**
 * The split phase: the reading loop that validates input lines and gathers
 * records into chunks, and the workers that sort each chunk into a run.
 * The goroutine pool and its channel become the ordered list of jobs the
 * loop sends, and the run files become values.
 */
module Split {
  import opened Lines
  import opened Validate
  import opened Sorting

  /** A chunk is sealed once its byte count reaches this (100 MiB) ... */
  const MaxDiskSize: int := 100 * 1024 * 1024
  /** ... or once it holds this many records. */
  const MaxItems: int := 500_000

  /** What the reading loop sends to the workers: a copy of the chunk's lines
      and the chunk's sequence number. */
  datatype Job = Job(lines: seq<Line>, id: nat)

  /** How the input stream ends: the final `ReadBytes` call returns either
      the last (possibly empty) fragment with `io.EOF`, or another error. */
  datatype Ending = Eof(last: Line) | ReadFailure

  /** The lines of the first `n` jobs, in sending order. */
  function Records(jobs: seq<Job>, n: nat): seq<Line>
    requires n <= |jobs|
  {
    if n == 0 then [] else Records(jobs, n - 1) + jobs[n - 1].lines
  }

  /** Jobs after the first `n` do not change the records of the first `n`. */
  lemma {:induction false} RecordsPrefix(jobs: seq<Job>, more: seq<Job>, n: nat)
    requires n <= |jobs|
    ensures Records(jobs + more, n) == Records(jobs, n)
  {
    if n > 0 {
      RecordsPrefix(jobs, more, n - 1);
      assert (jobs + more)[n - 1] == jobs[n - 1];
    }
  }

  /** The shape the reading loop gives its jobs: ids 0, 1, 2, ... in sending
      order, every job non-empty and at most `MaxItems` long, every job but
      the last exactly `MaxItems` long. */
  ghost predicate WellChunked(jobs: seq<Job>)
  {
    && (forall j :: 0 <= j < |jobs| ==> jobs[j].id == j && 0 < |jobs[j].lines| <= MaxItems)
    && (forall j :: 0 <= j < |jobs| - 1 ==> |jobs[j].lines| == MaxItems)
  }

  /** Every job sent so far is full: the shape while the loop is reading. */
  ghost predicate AllFull(jobs: seq<Job>)
  {
    forall j :: 0 <= j < |jobs| ==> jobs[j].id == j && |jobs[j].lines| == MaxItems
  }

  /** The reading loop's state between two lines: the jobs sent so far and
      the chunk being filled. */
  datatype Reading = Reading(jobs: seq<Job>, chunk: seq<Line>)

  /** One pass of the loop body over `line`; `eof` when the read that
      returned it also reported end of input. */
  function Feed(st: Reading, line: Line, eof: bool): Reading
  {
    var chunk := if Clean(line).Some? then st.chunk + [Clean(line).value] else st.chunk;
    if 33 * |chunk| >= MaxDiskSize || |chunk| >= MaxItems || (eof && |chunk| > 0)
    then Reading(st.jobs + [Job(chunk, |st.jobs|)], [])
    else Reading(st.jobs, chunk)
  }

  /** The state after the loop has consumed the first `n` lines. */
  function Fold(input: seq<Line>, n: nat): Reading
    requires n <= |input|
  {
    if n == 0 then Reading([], []) else Feed(Fold(input, n - 1), input[n - 1], false)
  }

  /**
   * The reading loop of `splitAndSortChunksParallel`. `input` holds the lines
   * `ReadBytes` returns without error, in order; `ending` is the last call.
   * On success the jobs hold every record of the input exactly once, in
   * input order; on a read error the jobs already sent hold the records of
   * the full chunks read so far, and the partial chunk is not sent.
   */
  method SplitChunks(input: seq<Line>, ending: Ending) returns (jobs: seq<Job>, ok: bool)
    ensures ok <==> ending.Eof?
    ensures WellChunked(jobs)
    ensures ok ==> Records(jobs, |jobs|) == Kept(input + [ending.last], |input| + 1)
    ensures !ok ==> AllFull(jobs)
                    && |jobs| * MaxItems <= |Kept(input, |input|)| < (|jobs| + 1) * MaxItems
                    && Records(jobs, |jobs|) == Kept(input, |input|)[..|jobs| * MaxItems]
  {
    var chunkSize := 0;
    var chunk: seq<Line> := [];
    var chunkCount := 0;
    jobs := [];
    var i := 0;
    while true
      invariant 0 <= i <= |input|
      invariant Reading(jobs, chunk) == Fold(input, i)
      invariant chunkCount == |jobs|
      invariant chunkSize == 33 * |chunk|  // StrLength + 1 bytes per record
      decreases |input| - i
    {
      var line: Line;
      var eof: bool;
      if i < |input| {
        line, eof := input[i], false;
      } else if ending.ReadFailure? {
        ReadFailureShape(input);
        return jobs, false;
      } else {
        line, eof := ending.last, true;
      }

      var clean := Clean(line);
      if clean.Some? {
        chunk := chunk + [clean.value];
        chunkSize := chunkSize + |clean.value| + 1;
      }

      if chunkSize >= MaxDiskSize || |chunk| >= MaxItems || (eof && |chunk| > 0) {
        jobs := jobs + [Job(chunk, chunkCount)];
        chunkCount := chunkCount + 1;
        chunk := [];
        chunkSize := 0;
      }
      assert Reading(jobs, chunk) == Feed(Fold(input, i), line, eof);

      if eof {
        EndShape(input, line);
        return jobs, true;
      }
      i := i + 1;
    }
  }

  /** After every line the jobs are full and hold, followed by the chunk, the
      records read so far. */
  lemma {:induction false} FoldShape(input: seq<Line>, n: nat)
    requires n <= |input|
    ensures AllFull(Fold(input, n).jobs) && |Fold(input, n).chunk| < MaxItems
    ensures Records(Fold(input, n).jobs, |Fold(input, n).jobs|) + Fold(input, n).chunk == Kept(input, n)
  {
    if n > 0 {
      FoldShape(input, n - 1);
      FeedShape(Fold(input, n - 1), input[n - 1], false);
      KeptStep(input, n - 1);
    }
  }

  /** The final line seals the last chunk: the jobs are well chunked and
      hold every record. */
  lemma EndShape(input: seq<Line>, last: Line)
    ensures Feed(Fold(input, |input|), last, true).chunk == []
    ensures WellChunked(Feed(Fold(input, |input|), last, true).jobs)
    ensures var jobs := Feed(Fold(input, |input|), last, true).jobs;
      Records(jobs, |jobs|) == Kept(input + [last], |input| + 1)
  {
    FoldShape(input, |input|);
    FeedShape(Fold(input, |input|), last, true);
    KeptPrefix(input, [last], |input|);
    KeptStep(input + [last], |input|);
  }

  /** One pass of the loop body moves the line's record into the chunk and
      the chunk, when full or at the end, into the jobs. */
  lemma FeedShape(st: Reading, line: Line, eof: bool)
    requires AllFull(st.jobs) && |st.chunk| < MaxItems
    ensures var st' := Feed(st, line, eof);
      Records(st'.jobs, |st'.jobs|) + st'.chunk == Records(st.jobs, |st.jobs|) + st.chunk + Record(line)
    ensures !eof ==> AllFull(Feed(st, line, eof).jobs) && |Feed(st, line, eof).chunk| < MaxItems
    ensures eof ==> WellChunked(Feed(st, line, eof).jobs) && Feed(st, line, eof).chunk == []
  {
    var chunk := if Clean(line).Some? then st.chunk + [Clean(line).value] else st.chunk;
    assert chunk == st.chunk + Record(line);
    AppendAssoc(Records(st.jobs, |st.jobs|), st.chunk, Record(line));
    if 33 * |chunk| >= MaxDiskSize || |chunk| >= MaxItems || (eof && |chunk| > 0) {
      SealStep(st.jobs, chunk);
      AppendNil(Records(st.jobs, |st.jobs|) + chunk);
    } else if eof {
      FullWellChunked(st.jobs);
    }
  }

  lemma AppendNil<T>(s: seq<T>)
    ensures s + [] == s
  {
  }

  lemma AppendAssoc<T>(a: seq<T>, b: seq<T>, c: seq<T>)
    ensures (a + b) + c == a + (b + c)
  {
  }

  /** Every full job list is well chunked. */
  lemma FullWellChunked(jobs: seq<Job>)
    requires AllFull(jobs)
    ensures WellChunked(jobs)
  {
  }

  /** Sending a non-empty chunk as the next job moves its lines from the chunk
      to the jobs and keeps the jobs well chunked; a full chunk keeps them
      full. */
  lemma SealStep(jobs: seq<Job>, chunk: seq<Line>)
    requires AllFull(jobs) && 0 < |chunk| <= MaxItems
    ensures Records(jobs + [Job(chunk, |jobs|)], |jobs| + 1) == Records(jobs, |jobs|) + chunk
    ensures WellChunked(jobs + [Job(chunk, |jobs|)])
    ensures |chunk| == MaxItems ==> AllFull(jobs + [Job(chunk, |jobs|)])
  {
    RecordsPrefix(jobs, [Job(chunk, |jobs|)], |jobs|);
  }

  /** On a read error, the jobs are the full chunks of what was read. */
  lemma FailureShape(jobs: seq<Job>, chunk: seq<Line>, kept: seq<Line>)
    requires AllFull(jobs)
    requires |chunk| < MaxItems
    requires Records(jobs, |jobs|) + chunk == kept
    ensures |jobs| * MaxItems <= |kept| < (|jobs| + 1) * MaxItems
    ensures Records(jobs, |jobs|) == kept[..|jobs| * MaxItems]
  {
    FullLength(jobs, |jobs|);
  }

  /** The jobs sent before a read error after the whole of `input`. */
  lemma ReadFailureShape(input: seq<Line>)
    ensures var jobs, kept := Fold(input, |input|).jobs, Kept(input, |input|);
      && AllFull(jobs) && WellChunked(jobs)
      && |jobs| * MaxItems <= |kept| < (|jobs| + 1) * MaxItems
      && Records(jobs, |jobs|) == kept[..|jobs| * MaxItems]
  {
    var st := Fold(input, |input|);
    FoldShape(input, |input|);
    FailureShape(st.jobs, st.chunk, Kept(input, |input|));
    FullWellChunked(st.jobs);
  }

  lemma {:induction false} FullLength(jobs: seq<Job>, n: nat)
    requires n <= |jobs|
    requires forall j :: 0 <= j < n ==> |jobs[j].lines| == MaxItems
    ensures |Records(jobs, n)| == n * MaxItems
  {
    if n > 0 {
      FullLength(jobs, n - 1);
    }
  }

  /** The number of jobs is the number of records divided by `MaxItems`,
      rounded up: no records give no job, `MaxItems` records one job and
      `MaxItems + 1` records two. */
  lemma WellChunkedCount(jobs: seq<Job>)
    requires WellChunked(jobs)
    ensures |jobs| == (|Records(jobs, |jobs|)| + MaxItems - 1) / MaxItems
  {
    if jobs != [] {
      FullLength(jobs, |jobs| - 1);
    }
  }

  /** The loop body with the byte threshold taken out: a chunk is sealed on
      its record count or at the end of the input only. */
  function FeedByCount(st: Reading, line: Line, eof: bool): Reading
  {
    var chunk := if Clean(line).Some? then st.chunk + [Clean(line).value] else st.chunk;
    if |chunk| >= MaxItems || (eof && |chunk| > 0)
    then Reading(st.jobs + [Job(chunk, |st.jobs|)], [])
    else Reading(st.jobs, chunk)
  }

  /** The byte threshold never fires: while the open chunk is below
      `MaxItems` records, as the loop keeps it (`FeedShape`), one pass of the
      loop does what it would do without the byte test. */
  lemma SizeThresholdUnreachable(st: Reading, line: Line, eof: bool)
    requires |st.chunk| < MaxItems
    ensures Feed(st, line, eof) == FeedByCount(st, line, eof)
  {
  }

  /** The loop over the first `n` lines with the byte test taken out. */
  function FoldByCount(input: seq<Line>, n: nat): Reading
    requires n <= |input|
  {
    if n == 0 then Reading([], []) else FeedByCount(FoldByCount(input, n - 1), input[n - 1], false)
  }

  /** Over any input, the loop ends up where it would without the byte
      test. */
  lemma {:induction false} FoldIgnoresSize(input: seq<Line>, n: nat)
    requires n <= |input|
    ensures Fold(input, n) == FoldByCount(input, n)
  {
    if n > 0 {
      FoldIgnoresSize(input, n - 1);
      FoldShape(input, n - 1);
      SizeThresholdUnreachable(Fold(input, n - 1), input[n - 1], false);
    }
  }

  /**
   * The worker pool: every one of the first `n` jobs that reaches a worker
   * becomes a run holding its lines in ascending order. A job whose run file
   * cannot be created is reported and skipped (`createFails` names those
   * ids); the phase still succeeds.
   */
  function Spill(jobs: seq<Job>, createFails: set<nat>, n: nat): (runs: seq<seq<Line>>)
    requires n <= |jobs|
    ensures |runs| <= n
  {
    if n == 0 then []
    else
      var init := Spill(jobs, createFails, n - 1);
      var last := jobs[n - 1];
      if last.id in createFails then init else init + [SortLines(last.lines)]
  }

  /** Every run is in ascending order. */
  lemma {:induction false} SpillSorted(jobs: seq<Job>, createFails: set<nat>, n: nat)
    requires n <= |jobs|
    ensures forall k :: 0 <= k < |Spill(jobs, createFails, n)| ==> Sorted(Spill(jobs, createFails, n)[k])
  {
    if n > 0 {
      SpillSorted(jobs, createFails, n - 1);
      var runs := Spill(jobs, createFails, n - 1);
      if jobs[n - 1].id !in createFails {
        var last := SortLines(jobs[n - 1].lines);
        SortLinesSpec(jobs[n - 1].lines);
        assert Spill(jobs, createFails, n) == runs + [last];
      }
    }
  }

  /** When every run file is created, run `k` is the sorted form of job `k`. */
  lemma {:induction false} SpillRuns(jobs: seq<Job>, createFails: set<nat>, n: nat)
    requires n <= |jobs|
    requires forall j :: 0 <= j < n ==> jobs[j].id !in createFails
    ensures |Spill(jobs, createFails, n)| == n
    ensures forall k :: 0 <= k < n ==> Spill(jobs, createFails, n)[k] == SortLines(jobs[k].lines)
  {
    if n > 0 {
      SpillRuns(jobs, createFails, n - 1);
      var runs := Spill(jobs, createFails, n - 1);
      assert Spill(jobs, createFails, n) == runs + [SortLines(jobs[n - 1].lines)];
    }
  }

  /** When every run file is created, the runs hold the jobs' lines, each
      as often. */
  lemma {:induction false} SpillBag(jobs: seq<Job>, createFails: set<nat>, n: nat)
    requires n <= |jobs|
    requires forall j :: 0 <= j < n ==> jobs[j].id !in createFails
    ensures multiset(Flatten(Spill(jobs, createFails, n))) == multiset(Records(jobs, n))
  {
    if n > 0 {
      SpillBag(jobs, createFails, n - 1);
      var runs := Spill(jobs, createFails, n - 1);
      var last := SortLines(jobs[n - 1].lines);
      assert multiset(last) == multiset(jobs[n - 1].lines) by {
        SortLinesSpec(jobs[n - 1].lines);
      }
      assert Spill(jobs, createFails, n) == runs + [last];
      FlattenAppend(runs, last);
      calc {
        multiset(Flatten(Spill(jobs, createFails, n)));
        multiset(Flatten(runs) + last);
        multiset(Flatten(runs)) + multiset(last);
        multiset(Records(jobs, n - 1)) + multiset(jobs[n - 1].lines);
        multiset(Records(jobs, n));
      }
    }
  }

  /** A job whose run file cannot be created loses its records: the runs
      hold strictly fewer records than the jobs. */
  lemma {:induction false} SpillLosesFailedJob(jobs: seq<Job>, createFails: set<nat>, n: nat, j: nat)
    requires j < n <= |jobs| && jobs[j].id in createFails && jobs[j].lines != []
    ensures |Flatten(Spill(jobs, createFails, n))| < |Records(jobs, n)|
  {
    if j < n - 1 {
      SpillLosesFailedJob(jobs, createFails, n - 1, j);
    } else {
      SpillAtMost(jobs, createFails, n - 1);
    }
    if jobs[n - 1].id !in createFails {
      FlattenAppend(Spill(jobs, createFails, n - 1), SortLines(jobs[n - 1].lines));
    }
  }

  /** The runs never hold more records than the jobs. */
  lemma {:induction false} SpillAtMost(jobs: seq<Job>, createFails: set<nat>, n: nat)
    requires n <= |jobs|
    ensures |Flatten(Spill(jobs, createFails, n))| <= |Records(jobs, n)|
  {
    if n > 0 {
      SpillAtMost(jobs, createFails, n - 1);
      if jobs[n - 1].id !in createFails {
        FlattenAppend(Spill(jobs, createFails, n - 1), SortLines(jobs[n - 1].lines));
      }
    }
  }

  /** The runs hold only lines of the jobs, never more often than the jobs
      do: a run that cannot be created loses lines but adds none. */
  lemma {:induction false} SpillSubBag(jobs: seq<Job>, createFails: set<nat>, n: nat)
    requires n <= |jobs|
    ensures multiset(Flatten(Spill(jobs, createFails, n))) <= multiset(Records(jobs, n))
  {
    if n > 0 {
      SpillSubBag(jobs, createFails, n - 1);
      var runs := Spill(jobs, createFails, n - 1);
      var lines := jobs[n - 1].lines;
      var got, had, added := multiset(Flatten(runs)), multiset(Records(jobs, n - 1)), multiset(lines);
      assert got <= had;
      assert multiset(Records(jobs, n)) == had + added;
      if jobs[n - 1].id in createFails {
        assert Spill(jobs, createFails, n) == runs;
        assert got <= had + added;
      } else {
        SortLinesSpec(lines);
        FlattenAppend(runs, SortLines(lines));
        assert multiset(Flatten(Spill(jobs, createFails, n))) == got + added;
        assert got + added <= had + added;
      }
    }
  }
}
