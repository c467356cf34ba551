/**
 * The whole sort as `main` runs it in the flat variant: the split phase
 * writes one run per chunk, and `mergeChunks` merges every run into the
 * output. Run files become values, and the faults the merge can meet when
 * it opens and reads them back are parameters.
 */
module Pipeline {
  import opened Lines
  import opened Validate
  import opened Sorting
  import opened Split
  import opened Cursor
  import opened Merge

  /** Where the scanner of run `k` stops: after `readable[k]` whole lines
      when `k` is in `readable`, at the end otherwise. */
  function Stop(runs: seq<seq<Line>>, readable: map<nat, nat>, k: nat): nat
    requires k < |runs|
  {
    if k in readable then readable[k] else |runs[k]|
  }

  /** What run `k`'s scanner had read of the line its read error cut. */
  function Cut(torn: map<nat, Line>, k: nat): Line
  {
    if k in torn then torn[k] else []
  }

  /** No run's read error cuts a line: a run that breaks hands out no cut
      line. */
  predicate Uncut(readable: map<nat, nat>, torn: map<nat, Line>)
  {
    forall k :: k in readable && k in torn ==> torn[k] == []
  }

  /** The run files the merge finds, in chunk order: the `k`-th cannot be
      opened when `k` is in `openFails`, and when `k` is in `readable` and
      `readable[k]` is less than the run's length, its scanner meets a read
      error after `readable[k]` whole lines, handing out `torn[k]` along
      with it if `k` is in `torn` and that is not empty. */
  function RunFiles(runs: seq<seq<Line>>, openFails: set<nat>, readable: map<nat, nat>,
                    torn: map<nat, Line>): (files: seq<RunFile>)
    ensures |files| == |runs|
    ensures forall k :: 0 <= k < |runs| ==> (files[k].openFails <==> k in openFails) && (files[k].readFails ==> k in readable)
    ensures forall k :: 0 <= k < |runs| && k !in readable ==> files[k].lines == runs[k]
    ensures forall k :: 0 <= k < |runs| && k !in openFails && k !in readable ==> files[k] == WholeFile(runs[k])
  {
    seq(|runs|, k requires 0 <= k < |runs| =>
      OnDisk(runs[k], k in openFails, Stop(runs, readable, k), Cut(torn, k)))
  }

  /** The records of an input that ends with `ending`: every valid line,
      trimmed, in input order. */
  function InputRecords(input: seq<Line>, ending: Ending): seq<Line>
    requires ending.Eof?
  {
    Kept(input + [ending.last], |input| + 1)
  }

  /**
   * `mergeChunks` over the run files the workers wrote: a run error names a
   * run that cannot be opened or read back, and with no such run the merge
   * fails only on the output. Otherwise every line of the output is a line
   * of the runs or a line a read error cut; with no cut line the output is
   * sorted and holds only lines of the runs, and all of them when every run
   * reads back whole.
   */
  method MergeRuns(runs: seq<seq<Line>>, openFails: set<nat>, readable: map<nat, nat>,
                   torn: map<nat, Line>, outputFails: bool)
    returns (res: Result<seq<Line>>)
    requires forall k :: 0 <= k < |runs| ==> Sorted(runs[k])
    ensures openFails == {} && readable == map[] ==> (res.Err? <==> outputFails)
    ensures res.Err? ==> res.error != InputReadError
    ensures res.Err? && res.error.RunOpenError? ==> res.error.run in openFails
    ensures res.Err? && res.error.RunReadError? ==> res.error.run in readable
    ensures res.Ok? ==> forall x :: x in res.value ==> x in Flatten(runs) || x in torn.Values
    ensures res.Ok? && Uncut(readable, torn) ==> Sorted(res.value) && multiset(res.value) <= multiset(Flatten(runs))
    ensures res.Ok? && readable == map[] ==> multiset(res.value) == multiset(Flatten(runs))
  {
    var files := RunFiles(runs, openFails, readable, torn);
    if openFails == {} && readable == map[] {
      WholeFilesOpen(files);
    }
    if Uncut(readable, torn) {
      forall k | 0 <= k < |files|
        ensures Sorted(files[k].lines)
      {
        RunUncut(runs, openFails, readable, torn, k);
      }
    }
    res := MergeChunks(files, outputFails);
    if res.Err? && res.error != OutputError {
      SetupErrorFirst(files, 0);
    }
    if res.Ok? {
      var dels := Deliverables(files);
      forall k, y | 0 <= k < |dels| && y in dels[k]
        ensures y in runs[k] || y in torn.Values
      {
        RunCuts(runs, openFails, readable, torn, k);
      }
      if Uncut(readable, torn) {
        forall k | 0 <= k < |dels|
          ensures multiset(dels[k]) <= multiset(runs[k])
        {
          RunCuts(runs, openFails, readable, torn, k);
        }
      }
      MergedLines(runs, dels, torn.Values, res.value);
      if readable == map[] {
        assert dels == runs;
        BagFlatten(runs);
      }
    }
  }

  /** The merged lines of readers that each obtain lines of their run or
      one of `cuts` are lines of the runs or cuts; when each obtains lines
      of its run only, each at most as often, so do the merged lines. */
  lemma MergedLines(runs: seq<seq<Line>>, dels: seq<seq<Line>>, cuts: set<Line>, out: seq<Line>)
    requires |dels| == |runs| && multiset(out) == Bag(dels, |dels|)
    requires forall k, y :: 0 <= k < |dels| && y in dels[k] ==> y in runs[k] || y in cuts
    ensures forall x :: x in out ==> x in Flatten(runs) || x in cuts
    ensures (forall k :: 0 <= k < |dels| ==> multiset(dels[k]) <= multiset(runs[k])) ==>
      multiset(out) <= multiset(Flatten(runs))
  {
    BagFlatten(runs);
    forall x | x in out
      ensures x in Flatten(runs) || x in cuts
    {
      assert x in multiset(out);
      BagMember(dels, |dels|, x);
      var k :| 0 <= k < |dels| && x in dels[k];
      if x in runs[k] {
        BagMember(runs, |runs|, x);
      }
    }
    if forall k :: 0 <= k < |dels| ==> multiset(dels[k]) <= multiset(runs[k]) {
      BagShrink(dels, runs, |runs|);
    }
  }

  /** Run `k` delivers lines of its own and at most its cut line; with no
      cut line, each at most as often as it holds it. */
  lemma RunCuts(runs: seq<seq<Line>>, openFails: set<nat>, readable: map<nat, nat>, torn: map<nat, Line>, k: nat)
    requires k < |runs|
    ensures forall y :: y in RunFiles(runs, openFails, readable, torn)[k].lines ==> y in runs[k] || y in torn.Values
    ensures Uncut(readable, torn) ==> multiset(RunFiles(runs, openFails, readable, torn)[k].lines) <= multiset(runs[k])
  {
    var cut := Cut(torn, k);
    OnDiskLines(runs[k], k in openFails, Stop(runs, readable, k), cut);
    if cut != [] {
      assert k in torn && cut == torn[k];
    }
  }

  /** With no cut line, a sorted run delivers its lines in order. */
  lemma RunUncut(runs: seq<seq<Line>>, openFails: set<nat>, readable: map<nat, nat>, torn: map<nat, Line>, k: nat)
    requires k < |runs| && Sorted(runs[k]) && Uncut(readable, torn)
    ensures Sorted(RunFiles(runs, openFails, readable, torn)[k].lines)
  {
    OnDiskSorted(runs[k], k in openFails, Stop(runs, readable, k), Cut(torn, k));
  }

  /**
   * Split, sort and spill, then merge. A read error on the input stops the
   * sort before any merge. A run error names a run that cannot be opened or
   * read back; with no such run the sort fails only on the output.
   * Otherwise every line of the output is a record of the input or a line a
   * read error cut; with no cut line the output is sorted and holds only
   * records of the input, each at most as often; when every run file is
   * created and read back whole it is exactly the input's records in sorted
   * order.
   */
  method SortFile(input: seq<Line>, ending: Ending, createFails: set<nat>,
                  openFails: set<nat>, readable: map<nat, nat>, torn: map<nat, Line>, outputFails: bool)
    returns (res: Result<seq<Line>>)
    ensures ending.ReadFailure? ==> res == Err(InputReadError)
    ensures ending.Eof? && openFails == {} && readable == map[] ==> (res.Err? <==> outputFails)
    ensures res.Err? && res.error.RunOpenError? ==> res.error.run in openFails
    ensures res.Err? && res.error.RunReadError? ==> res.error.run in readable
    ensures res.Ok? ==> forall x :: x in res.value ==> x in InputRecords(input, ending) || x in torn.Values
    ensures res.Ok? && Uncut(readable, torn) ==> Sorted(res.value)
    ensures res.Ok? && Uncut(readable, torn) ==> multiset(res.value) <= multiset(InputRecords(input, ending))
    ensures res.Ok? && createFails == {} && readable == map[] ==> res.value == SortLines(InputRecords(input, ending))
  {
    var jobs, ok := SplitChunks(input, ending);
    if !ok {
      return Err(InputReadError);
    }
    var runs := Spill(jobs, createFails, |jobs|);
    SpillSorted(jobs, createFails, |jobs|);
    res := MergeRuns(runs, openFails, readable, torn, outputFails);
    if res.Ok? {
      var records := InputRecords(input, ending);
      assert Records(jobs, |jobs|) == records;
      SpillSubBag(jobs, createFails, |jobs|);
      WithinMember(res.value, Flatten(runs), records, torn.Values);
      if createFails == {} && readable == map[] {
        SpillBag(jobs, createFails, |jobs|);
        SortLinesCharacterised(records, res.value);
      }
    }
  }

  /** Lines each of which is in `a` or in `cuts` are in `b` or in `cuts`
      when `b` holds every line of `a`. */
  lemma WithinMember(out: seq<Line>, a: seq<Line>, b: seq<Line>, cuts: set<Line>)
    requires multiset(a) <= multiset(b)
    requires forall x :: x in out ==> x in a || x in cuts
    ensures forall x :: x in out ==> x in b || x in cuts
  {
    forall x | x in out && x !in cuts
      ensures x in b
    {
      assert x in multiset(a);
    }
  }
}
