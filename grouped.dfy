/**
 * The grouped merge, `mergeChunksParallelGrouped`: the run files are cut
 * into contiguous groups of at most `GroupSize`, each group is merged into a
 * part file `part_NN`, and the parts are then copied one after the other
 * into the final output. The groups run concurrently in the program; here
 * they run one after the other, in group order.
 */
module Grouped {
  import opened Lines
  import opened Sorting
  import opened Cursor
  import opened Merge

  /** How many run files one group merges. */
  const GroupSize: nat := 16

  /** `numGroups`: the number of groups for `n` run files. */
  function NumGroups(n: nat): nat
  {
    (n + GroupSize - 1) / GroupSize
  }

  /** `end` for group `i` of `n` run files: `GroupSize` past its start, cut
      back to `n`. */
  function GroupEnd(n: nat, i: nat): nat
  {
    if i * GroupSize + GroupSize > n then n else i * GroupSize + GroupSize
  }

  /** `numGroups` is `n / GroupSize` rounded up: just enough groups of
      `GroupSize` to hold `n` files. */
  lemma NumGroupsCeil(n: nat)
    ensures n <= NumGroups(n) * GroupSize < n + GroupSize
  {
  }

  /** Every group starts before its end, inside the files, and holds at most
      `GroupSize` of them; all groups but the last hold exactly that many. */
  lemma GroupBounds(n: nat, i: nat)
    requires i < NumGroups(n)
    ensures i * GroupSize < GroupEnd(n, i) <= n
    ensures GroupEnd(n, i) - i * GroupSize <= GroupSize
    ensures i + 1 < NumGroups(n) ==> GroupEnd(n, i) == (i + 1) * GroupSize
  {
    NumGroupsCeil(n);
  }

  /** `files[start:end]`: the run files group `i` merges. */
  function Group(files: seq<RunFile>, i: nat): (g: seq<RunFile>)
    requires i < NumGroups(|files|)
    ensures 0 < |g| <= GroupSize
  {
    GroupBounds(|files|, i);
    files[i * GroupSize..GroupEnd(|files|, i)]
  }

  /** The first `g` groups, one after the other. */
  function Joined(files: seq<RunFile>, g: nat): seq<RunFile>
    requires g <= NumGroups(|files|)
  {
    if g == 0 then [] else Joined(files, g - 1) + Group(files, g - 1)
  }

  /** The first `g` groups are the files up to the end of group `g - 1`. */
  lemma {:induction false} JoinedPrefix(files: seq<RunFile>, g: nat)
    requires 0 < g <= NumGroups(|files|)
    ensures Joined(files, g) == files[..GroupEnd(|files|, g - 1)]
  {
    var n := |files|;
    GroupBounds(n, g - 1);
    if g == 1 {
      assert Joined(files, 1) == Group(files, 0);
    } else {
      JoinedPrefix(files, g - 1);
      GroupBounds(n, g - 2);
      assert files[..GroupEnd(n, g - 1)] == files[..GroupEnd(n, g - 2)] + Group(files, g - 1);
    }
  }

  /** The groups partition the files: each is non-empty and holds at most
      `GroupSize` files, and together, in index order, they are the files. */
  lemma GroupsPartition(files: seq<RunFile>)
    ensures forall i :: 0 <= i < NumGroups(|files|) ==> 0 < |Group(files, i)| <= GroupSize
    ensures Joined(files, NumGroups(|files|)) == files
  {
    var n := |files|;
    if NumGroups(n) > 0 {
      JoinedPrefix(files, NumGroups(n));
      GroupBounds(n, NumGroups(n) - 1);
      NumGroupsCeil(n);
    }
  }

  /** The decimal digit `d`. */
  function Digit(d: nat): char
    requires d < 10
  {
    ('0' as int + d) as char
  }

  /** The decimal form of `n`, without leading zeros. */
  function Decimal(n: nat): string
    decreases n
  {
    if n < 10 then [Digit(n)] else Decimal(n / 10) + [Digit(n % 10)]
  }

  /** `fmt.Sprintf("part_%02d", i)`: the decimal form of `i`, padded with a
      zero to two digits. */
  function PartName(i: nat): string
  {
    "part_" + (if i < 10 then "0" else "") + Decimal(i)
  }

  /** The value of a string of decimal digits. */
  function DecimalValue(s: string): nat
  {
    if s == [] then 0
    else DecimalValue(s[..|s| - 1]) * 10 + (if '0' <= s[|s| - 1] <= '9' then s[|s| - 1] as int - '0' as int else 0)
  }

  /** The group number a part name stands for. */
  function PartIndex(name: string): nat
  {
    if |name| < 5 then 0 else DecimalValue(name[5..])
  }

  lemma {:induction false} DecimalRoundTrip(n: nat)
    ensures DecimalValue(Decimal(n)) == n
    decreases n
  {
    if n >= 10 {
      DecimalRoundTrip(n / 10);
      var s := Decimal(n);
      assert s[..|s| - 1] == Decimal(n / 10);
    }
  }

  lemma {:induction false} LeadingZero(s: string)
    ensures DecimalValue("0" + s) == DecimalValue(s)
  {
    if s != [] {
      LeadingZero(s[..|s| - 1]);
      assert ("0" + s)[..|s|] == "0" + s[..|s| - 1];
    }
  }

  /** A part name gives back its group number. */
  lemma PartNameRoundTrip(i: nat)
    ensures PartIndex(PartName(i)) == i
  {
    DecimalRoundTrip(i);
    var digits := (if i < 10 then "0" else "") + Decimal(i);
    assert PartName(i)[5..] == digits;
    if i < 10 {
      LeadingZero(Decimal(i));
    }
  }

  /** Different groups write different part files. */
  lemma PartNamesDistinct(i: nat, j: nat)
    requires i != j
    ensures PartName(i) != PartName(j)
  {
    PartNameRoundTrip(i);
    PartNameRoundTrip(j);
  }

  /** Below 100 groups the names have exactly two digits. */
  lemma PartNameWidth(i: nat)
    requires i < 100
    ensures |PartName(i)| == 7
  {
    if i >= 10 {
      assert Decimal(i) == Decimal(i / 10) + [Digit(i % 10)];
    }
  }

  /** Every run file delivers its lines in ascending order. */
  ghost predicate RunsSorted(files: seq<RunFile>)
  {
    forall i :: 0 <= i < |files| ==> Sorted(files[i].lines)
  }

  lemma GroupSorted(files: seq<RunFile>, i: nat)
    requires i < NumGroups(|files|) && RunsSorted(files)
    ensures RunsSorted(Group(files, i))
  {
    GroupBounds(|files|, i);
    forall k | 0 <= k < |Group(files, i)|
      ensures Sorted(Group(files, i)[k].lines)
    {
      assert Group(files, i)[k] == files[i * GroupSize + k];
    }
  }

  /** The lines the readers of group `i` can obtain, run after run. */
  function GroupLines(files: seq<RunFile>, i: nat): seq<Line>
    requires i < NumGroups(|files|)
  {
    Flatten(Deliverables(Group(files, i)))
  }

  /** The lines the readers of group `i` can obtain, as a multiset. */
  ghost function GroupBag(files: seq<RunFile>, i: nat): multiset<Line>
    requires i < NumGroups(|files|)
  {
    Bag(Deliverables(Group(files, i)), |Group(files, i)|)
  }

  /** The lines of the first `g` groups, as a multiset. */
  ghost function GroupsBag(files: seq<RunFile>, g: nat): multiset<Line>
    requires g <= NumGroups(|files|)
  {
    if g == 0 then multiset{} else GroupsBag(files, g - 1) + GroupBag(files, g - 1)
  }

  /** What the readers of a slice of the files obtain is that slice of what
      the readers of all of them obtain. */
  lemma DeliverablesSlice(files: seq<RunFile>, i: nat, j: nat)
    requires i <= j <= |files|
    ensures Deliverables(files[i..j]) == Deliverables(files)[i..j]
  {
  }

  /** The first `g` groups hold the lines of the files up to the end of
      group `g - 1`. */
  lemma {:induction false} GroupsBagPrefix(files: seq<RunFile>, g: nat)
    requires 0 < g <= NumGroups(|files|)
    ensures GroupsBag(files, g) == Bag(Deliverables(files), GroupEnd(|files|, g - 1))
  {
    var n, d := |files|, Deliverables(files);
    GroupBounds(n, g - 1);
    var start, end := (g - 1) * GroupSize, GroupEnd(n, g - 1);
    GroupBagSlice(files, g - 1, d, start, end);
    BagSlice(d, start, end);
    var before := GroupsBag(files, g - 1);
    if g == 1 {
      assert start == 0;
      assert before == multiset{} == Bag(d, start);
    } else {
      GroupsBagPrefix(files, g - 1);
      GroupBounds(n, g - 2);
      assert GroupEnd(n, g - 2) == start;
      assert before == Bag(d, start);
    }
    assert GroupsBag(files, g) == before + GroupBag(files, g - 1);
  }

  /** Group `i` holds the lines of its slice of the files. */
  lemma GroupBagSlice(files: seq<RunFile>, i: nat, d: seq<seq<Line>>, start: nat, end: nat)
    requires i < NumGroups(|files|) && d == Deliverables(files)
    requires start == i * GroupSize && end == GroupEnd(|files|, i)
    ensures start < end <= |d|
    ensures GroupBag(files, i) == Bag(d[start..end], end - start)
  {
    GroupBounds(|files|, i);
    DeliverablesSlice(files, start, end);
  }

  /** All groups together hold every line the readers can obtain, each as
      often as the runs do. */
  lemma GroupsBagAll(files: seq<RunFile>)
    ensures GroupsBag(files, NumGroups(|files|)) == Bag(Deliverables(files), |files|)
  {
    var n := |files|;
    if NumGroups(n) > 0 {
      GroupsBagPrefix(files, NumGroups(n));
      GroupsPartition(files);
      JoinedPrefix(files, NumGroups(n));
    }
  }

  /** What the program writes when every run is sorted: each group's lines
      sorted on their own, group after group. */
  function GroupedOutput(files: seq<RunFile>, g: nat): seq<Line>
    requires g <= NumGroups(|files|)
  {
    if g == 0 then [] else GroupedOutput(files, g - 1) + SortLines(GroupLines(files, g - 1))
  }

  lemma {:induction false} GroupedOutputPrefix(files: seq<RunFile>, g: nat, h: nat)
    requires g <= h <= NumGroups(|files|)
    ensures |GroupedOutput(files, g)| <= |GroupedOutput(files, h)|
    ensures GroupedOutput(files, h)[..|GroupedOutput(files, g)|] == GroupedOutput(files, g)
    decreases h
  {
    if g < h {
      GroupedOutputPrefix(files, g, h - 1);
      var before := GroupedOutput(files, h - 1);
      assert GroupedOutput(files, h) == before + SortLines(GroupLines(files, h - 1));
      AppendKeepsPrefix(GroupedOutput(files, g), before, SortLines(GroupLines(files, h - 1)));
    }
  }

  /** A prefix of `a` stays a prefix once more is appended to `a`. */
  lemma AppendKeepsPrefix(p: seq<Line>, a: seq<Line>, b: seq<Line>)
    requires |p| <= |a| && a[..|p|] == p
    ensures (a + b)[..|p|] == p
  {
    assert (a + b)[..|p|] == a[..|p|];
  }

  /** Whether group `k` fails: one of its files cannot be opened or give
      its first batch, or its part file cannot be written. */
  predicate GroupFails(files: seq<RunFile>, partFails: set<nat>, k: nat)
    requires k < NumGroups(|files|)
  {
    SetupError(Group(files, k), 0).Some? || k in partFails
  }

  /** The error the merge of group `k` reports. */
  function GroupError(files: seq<RunFile>, partFails: set<nat>, k: nat): Error
    requires k < NumGroups(|files|)
  {
    if SetupError(Group(files, k), 0).Some? then SetupError(Group(files, k), 0).value else OutputError
  }

  /** `errChan` after the first `g` groups: the error of every failing
      group, in group order. */
  function Errors(files: seq<RunFile>, partFails: set<nat>, g: nat): seq<Error>
    requires g <= NumGroups(|files|)
  {
    if g == 0 then [] else
    var last := if GroupFails(files, partFails, g - 1) then [GroupError(files, partFails, g - 1)] else [];
    Errors(files, partFails, g - 1) + last
  }

  /** No error is collected exactly when no group fails. */
  lemma {:induction false} ErrorsEmpty(files: seq<RunFile>, partFails: set<nat>, g: nat)
    requires g <= NumGroups(|files|)
    ensures Errors(files, partFails, g) == [] <==> forall k :: 0 <= k < g ==> !GroupFails(files, partFails, k)
  {
    if g > 0 {
      ErrorsEmpty(files, partFails, g - 1);
    }
  }

  /** Part file `k` is on disk, holds the lines of group `k`, and holds them
      sorted when the group's runs are. */
  ghost predicate PartHolds(disk: map<string, seq<Line>>, files: seq<RunFile>, k: nat)
    requires k < NumGroups(|files|)
  {
    PartName(k) in disk && PartOf(files, k, disk[PartName(k)])
  }

  /** `lines` can be the part of group `k`: the group's lines, sorted when
      the group's runs are. */
  ghost predicate PartOf(files: seq<RunFile>, k: nat, lines: seq<Line>)
    requires k < NumGroups(|files|)
  {
    && multiset(lines) == GroupBag(files, k)
    && (RunsSorted(Group(files, k)) ==> lines == SortLines(GroupLines(files, k)))
  }

  /** The merge of one group into its part file. */
  method MergeGroup(files: seq<RunFile>, partFails: set<nat>, i: nat, disk: map<string, seq<Line>>)
    returns (disk': map<string, seq<Line>>, err: Option<Error>)
    requires i < NumGroups(|files|)
    ensures err.Some? <==> GroupFails(files, partFails, i)
    ensures err.Some? ==> err.value == GroupError(files, partFails, i) && disk' == disk
    ensures err.None? ==> PartHolds(disk', files, i) && disk' == disk[PartName(i) := disk'[PartName(i)]]
  {
    var start := i * GroupSize;
    var end := start + GroupSize;
    if end > |files| {
      end := |files|;
    }
    var group := files[start..end];
    var r := MergeChunks(group, i in partFails);
    if r.Err? {
      return disk, Some(r.error);
    }
    disk' := disk[PartName(i) := r.value];
    err := None;
    BagFlatten(Deliverables(group));
    if RunsSorted(group) {
      SortLinesCharacterised(GroupLines(files, i), r.value);
    }
  }

  /** Writing part `i` leaves the parts of the groups before it as they were. */
  lemma PartsKept(files: seq<RunFile>, partFails: set<nat>, disk: map<string, seq<Line>>, i: nat, lines: seq<Line>)
    requires i <= NumGroups(|files|)
    requires forall k :: 0 <= k < i && !GroupFails(files, partFails, k) ==> PartHolds(disk, files, k)
    ensures forall k :: 0 <= k < i && !GroupFails(files, partFails, k) ==> PartHolds(disk[PartName(i) := lines], files, k)
  {
    forall k | 0 <= k < i && !GroupFails(files, partFails, k)
      ensures PartHolds(disk[PartName(i) := lines], files, k)
    {
      PartNamesDistinct(k, i);
      PartHoldsFrame(disk, disk[PartName(i) := lines], files, k);
    }
  }

  /** Part `k` still holds when its file is left as it was. */
  lemma PartHoldsFrame(disk: map<string, seq<Line>>, disk': map<string, seq<Line>>, files: seq<RunFile>, k: nat)
    requires k < NumGroups(|files|) && PartHolds(disk, files, k)
    requires PartName(k) in disk' && disk'[PartName(k)] == disk[PartName(k)]
    ensures PartHolds(disk', files, k)
  {
  }

  /**
   * The group loop of `mergeChunksParallelGrouped`: names every group's part
   * file in `tempFiles`, merges the group into it, and collects the errors.
   * Every group is merged, whether or not another one failed.
   */
  method MergeGroups(files: seq<RunFile>, partFails: set<nat>)
    returns (tempFiles: array<string>, disk: map<string, seq<Line>>, errs: seq<Error>)
    ensures fresh(tempFiles) && tempFiles.Length == NumGroups(|files|)
    ensures Named(tempFiles, tempFiles.Length)
    ensures GroupsDone(files, partFails, NumGroups(|files|), disk, errs)
  {
    var numGroups := NumGroups(|files|);
    tempFiles := new string[numGroups];
    disk := map[];
    errs := [];
    assert GroupsDone(files, partFails, 0, disk, errs);
    for i := 0 to numGroups
      invariant Named(tempFiles, i)
      invariant GroupsDone(files, partFails, i, disk, errs)
    {
      tempFiles[i] := PartName(i);
      disk, errs := MergeNext(files, partFails, i, disk, errs);
    }
  }

  /** The first `i` entries of `tempFiles` name the parts of groups 0 to
      `i - 1`. */
  ghost predicate Named(tempFiles: array<string>, i: nat)
    reads tempFiles
  {
    i <= tempFiles.Length && forall k :: 0 <= k < i ==> tempFiles[k] == PartName(k)
  }

  /** After the first `i` groups: their errors are collected in order, and
      the part of every one that did not fail holds its lines. */
  ghost predicate GroupsDone(files: seq<RunFile>, partFails: set<nat>, i: nat,
                             disk: map<string, seq<Line>>, errs: seq<Error>)
    requires i <= NumGroups(|files|)
  {
    && errs == Errors(files, partFails, i)
    && forall k :: 0 <= k < i && !GroupFails(files, partFails, k) ==> PartHolds(disk, files, k)
  }

  /** One pass of the group loop: merges group `i` and collects its error. */
  method MergeNext(files: seq<RunFile>, partFails: set<nat>, i: nat,
                   disk: map<string, seq<Line>>, errs: seq<Error>)
    returns (disk': map<string, seq<Line>>, errs': seq<Error>)
    requires i < NumGroups(|files|) && GroupsDone(files, partFails, i, disk, errs)
    ensures GroupsDone(files, partFails, i + 1, disk', errs')
  {
    var next, err := MergeGroup(files, partFails, i, disk);
    if err.Some? {
      errs' := errs + [err.value];
    } else {
      errs' := errs;
      PartsKept(files, partFails, disk, i, next[PartName(i)]);
    }
    disk' := next;
  }

  /**
   * `mergeChunksParallelGrouped` as written: merges every group into its
   * part, returns the first collected error if any group failed, and
   * otherwise copies the parts one after the other into the output. The
   * output holds every line the readers can obtain, each exactly once; with
   * sorted runs it is each group's lines sorted, group after group, which is
   * not sorted as a whole (see `GroupedUnsorted`).
   */
  method MergeGrouped(files: seq<RunFile>, partFails: set<nat>, outputFails: bool)
    returns (res: Result<seq<Line>>, ghost parts: seq<seq<Line>>)
    ensures res.Err? <==> Errors(files, partFails, NumGroups(|files|)) != [] || outputFails
    ensures Errors(files, partFails, NumGroups(|files|)) != [] ==>
      res == Err(Errors(files, partFails, NumGroups(|files|))[0])
    ensures Errors(files, partFails, NumGroups(|files|)) == [] && outputFails ==> res == Err(OutputError)
    ensures res.Ok? ==> multiset(res.value) == Bag(Deliverables(files), |files|)
    ensures res.Ok? && RunsSorted(files) ==> res.value == GroupedOutput(files, NumGroups(|files|))
    ensures res.Ok? ==> PartsJoined(files, NumGroups(|files|), parts, res.value)
  {
    var tempFiles, disk, errs := MergeGroups(files, partFails);
    parts := [];
    if |errs| > 0 {
      res := Err(errs[0]);
      return;
    }
    if outputFails {
      res := Err(OutputError);
      return;
    }
    ErrorsEmpty(files, partFails, tempFiles.Length);
    var out;
    out, parts := CopyParts(files, tempFiles, disk);
    res := Ok(out);
  }

  /** The copy loop: appends the parts to the output in group order,
      removing each part's file after it is copied. */
  method CopyParts(files: seq<RunFile>, tempFiles: array<string>, disk: map<string, seq<Line>>)
    returns (out: seq<Line>, ghost parts: seq<seq<Line>>)
    requires tempFiles.Length == NumGroups(|files|) && Named(tempFiles, tempFiles.Length)
    requires forall k :: 0 <= k < NumGroups(|files|) ==> PartHolds(disk, files, k)
    ensures multiset(out) == Bag(Deliverables(files), |files|)
    ensures RunsSorted(files) ==> out == GroupedOutput(files, NumGroups(|files|))
    ensures PartsJoined(files, NumGroups(|files|), parts, out)
  {
    out := [];
    parts := [];
    var disk := disk;
    assert GroupsBag(files, 0) == multiset{} && GroupedOutput(files, 0) == [];
    assert Copied(files, 0, disk, out);
    for k := 0 to tempFiles.Length
      invariant Copied(files, k, disk, out)
      invariant PartsJoined(files, k, parts, out)
    {
      disk, out, parts := CopyNext(files, k, tempFiles[k], disk, out, parts);
    }
    GroupsBagAll(files);
  }

  /** After the first `k` parts are copied: the output holds their lines,
      as the parts were when the runs are sorted, and every later part is
      still on disk with its lines. */
  ghost predicate Copied(files: seq<RunFile>, k: nat, disk: map<string, seq<Line>>, out: seq<Line>)
    requires k <= NumGroups(|files|)
  {
    && multiset(out) == GroupsBag(files, k)
    && (RunsSorted(files) ==> out == GroupedOutput(files, k))
    && forall j :: k <= j < NumGroups(|files|) ==> PartHolds(disk, files, j)
  }

  /** One pass of the copy loop, with the copied parts kept alongside. */
  method CopyNext(files: seq<RunFile>, k: nat, name: string, disk: map<string, seq<Line>>, out: seq<Line>,
                  ghost parts: seq<seq<Line>>)
    returns (disk': map<string, seq<Line>>, out': seq<Line>, ghost parts': seq<seq<Line>>)
    requires k < NumGroups(|files|) && name == PartName(k)
    requires Copied(files, k, disk, out) && PartsJoined(files, k, parts, out)
    ensures Copied(files, k + 1, disk', out') && PartsJoined(files, k + 1, parts', out')
  {
    assert PartHolds(disk, files, k);
    ghost var part := disk[name];
    JoinedStep(files, k, parts, out, part);
    disk', out' := CopyPart(files, k, name, disk, out);
    parts' := parts + [part];
  }

  /** After the first `k` parts are copied: `parts` are their contents, in
      group order, and the output is them joined. */
  ghost predicate PartsJoined(files: seq<RunFile>, k: nat, parts: seq<seq<Line>>, out: seq<Line>)
    requires k <= NumGroups(|files|)
  {
    && |parts| == k
    && out == Flatten(parts)
    && forall j :: 0 <= j < k ==> PartOf(files, j, parts[j])
  }

  /** Appending part `k` to the output keeps the output the parts joined. */
  lemma JoinedStep(files: seq<RunFile>, k: nat, parts: seq<seq<Line>>, out: seq<Line>, part: seq<Line>)
    requires k < NumGroups(|files|) && PartsJoined(files, k, parts, out) && PartOf(files, k, part)
    ensures PartsJoined(files, k + 1, parts + [part], out + part)
  {
    FlattenAppend(parts, part);
    var parts' := parts + [part];
    forall j | 0 <= j < k + 1
      ensures PartOf(files, j, parts'[j])
    {
      if j < k {
        assert parts'[j] == parts[j];
      }
    }
  }

  /** One pass of the copy loop: appends part `k` to the output and removes
      its file. */
  method CopyPart(files: seq<RunFile>, k: nat, name: string, disk: map<string, seq<Line>>, out: seq<Line>)
    returns (disk': map<string, seq<Line>>, out': seq<Line>)
    requires k < NumGroups(|files|) && name == PartName(k) && Copied(files, k, disk, out)
    ensures name in disk && out' == out + disk[name] && disk' == disk - {name}
    ensures Copied(files, k + 1, disk', out')
  {
    assert PartHolds(disk, files, k);
    var part := disk[name];
    out' := out + part;
    disk' := disk - {name};
    assert multiset(out') == GroupsBag(files, k) + GroupBag(files, k);
    if RunsSorted(files) {
      GroupSorted(files, k);
      assert out' == GroupedOutput(files, k) + SortLines(GroupLines(files, k));
    }
    forall j | k < j < NumGroups(|files|)
      ensures PartHolds(disk', files, j)
    {
      PartNamesDistinct(j, k);
      PartHoldsFrame(disk, disk', files, j);
    }
  }

  /** With a line of the first group above a line of the second, the
      concatenated output is out of order, even when every run is sorted. */
  lemma GroupedUnsorted(files: seq<RunFile>, x: Line, y: Line)
    requires 2 <= NumGroups(|files|)
    requires x in GroupLines(files, 0) && y in GroupLines(files, 1) && Less(y, x)
    ensures !Sorted(GroupedOutput(files, NumGroups(|files|)))
  {
    var first, second := SortLines(GroupLines(files, 0)), SortLines(GroupLines(files, 1));
    SortLinesSpec(GroupLines(files, 0));
    SortLinesSpec(GroupLines(files, 1));
    assert x in multiset(GroupLines(files, 0)) && y in multiset(GroupLines(files, 1));
    assert x in first && y in second;
    var one := GroupedOutput(files, 1);
    assert GroupedOutput(files, 0) == [];
    assert one == GroupedOutput(files, 0) + first;
    assert x in one;
    assert GroupedOutput(files, 2) == one + second;
    ConcatUnsorted(one, second, x, y);
    GroupedOutputPrefix(files, 2, NumGroups(|files|));
    PrefixUnsorted(GroupedOutput(files, 2), GroupedOutput(files, NumGroups(|files|)));
  }

  /** A line of the first half above a line of the second: not sorted. */
  lemma ConcatUnsorted(a: seq<Line>, b: seq<Line>, x: Line, y: Line)
    requires x in a && y in b && Less(y, x)
    ensures !Sorted(a + b)
  {
    var i :| 0 <= i < |a| && a[i] == x;
    var j :| 0 <= j < |b| && b[j] == y;
    assert (a + b)[i] == x && (a + b)[|a| + j] == y;
  }

  /** A sequence that starts with an unsorted one is not sorted. */
  lemma PrefixUnsorted(s: seq<Line>, t: seq<Line>)
    requires |s| <= |t| && t[..|s|] == s && !Sorted(s)
    ensures !Sorted(t)
  {
    var i, j :| 0 <= i < j < |s| && !Le(s[i], s[j]);
    assert t[i] == s[i] && t[j] == s[j];
  }

  /** Seventeen sorted runs: the first holds a line that the seventeenth,
      alone in the second group, holds a smaller one than. */
  function SeventeenRuns(): seq<RunFile>
  {
    [WholeFile([[1]])] + seq(15, _ => WholeFile([])) + [WholeFile([[0]])]
  }

  /** On seventeen sorted runs the grouped merge writes `[1]` before `[0]`. */
  lemma GroupedCounterexample()
    ensures RunsSorted(SeventeenRuns())
    ensures !Sorted(GroupedOutput(SeventeenRuns(), NumGroups(|SeventeenRuns()|)))
  {
    var files := SeventeenRuns();
    forall i | 0 <= i < |files|
      ensures Sorted(files[i].lines)
    {
      assert |files[i].lines| <= 1;
    }
    assert NumGroups(|files|) == 2;
    var g0, g1 := Group(files, 0), Group(files, 1);
    assert g0[0] == files[0] && g1 == [files[16]];
    var d0, d1 := Deliverables(g0), Deliverables(g1);
    assert d0[0] == files[0].lines == [[1]];
    assert files[16] == WholeFile([[0]]);
    assert d1 == [files[16].lines];
    assert Flatten(d0) == [[1]] + Flatten(d0[1..]);
    assert Flatten(d1) == [[0]] + Flatten(d1[1..]);
    GroupedUnsorted(files, [1], [0]);
  }

  /**
   * The grouped merge with the parts combined by a k-way merge instead of
   * copied one after the other: the output then holds every line the
   * readers can obtain, each exactly once, and is sorted when every run is.
   */
  method MergeGroupedSorted(files: seq<RunFile>, partFails: set<nat>, outputFails: bool)
    returns (res: Result<seq<Line>>)
    ensures res.Err? <==> Errors(files, partFails, NumGroups(|files|)) != [] || outputFails
    ensures Errors(files, partFails, NumGroups(|files|)) != [] ==>
      res == Err(Errors(files, partFails, NumGroups(|files|))[0])
    ensures Errors(files, partFails, NumGroups(|files|)) == [] && outputFails ==> res == Err(OutputError)
    ensures res.Ok? ==> multiset(res.value) == Bag(Deliverables(files), |files|)
    ensures res.Ok? && RunsSorted(files) ==> Sorted(res.value)
  {
    var tempFiles, disk, errs := MergeGroups(files, partFails);
    if |errs| > 0 {
      return Err(errs[0]);
    }
    ErrorsEmpty(files, partFails, tempFiles.Length);
    var parts: seq<RunFile> := [];
    for k := 0 to tempFiles.Length
      invariant Named(tempFiles, tempFiles.Length)
      invariant PartsRead(files, disk, parts, k)
    {
      assert PartHolds(disk, files, k) && tempFiles[k] == PartName(k);
      var lines := disk[tempFiles[k]];
      PartsReadStep(files, disk, parts, k);
      parts := parts + [WholeFile(lines)];
    }
    WholeFilesOpen(parts);
    PartsBag(files, disk, parts, |parts|);
    GroupsBagAll(files);
    if RunsSorted(files) {
      forall j | 0 <= j < |parts|
        ensures Sorted(parts[j].lines)
      {
        GroupSorted(files, j);
        SortLinesSpec(GroupLines(files, j));
      }
    }
    res := MergeChunks(parts, outputFails);
  }

  /** The first `k` parts are read: each is on disk with its group's lines,
      and `parts` holds them as run files, in group order. */
  ghost predicate PartsRead(files: seq<RunFile>, disk: map<string, seq<Line>>, parts: seq<RunFile>, k: nat)
    requires k <= NumGroups(|files|)
  {
    && |parts| == k
    && forall j :: 0 <= j < k ==> PartHolds(disk, files, j) && parts[j] == WholeFile(disk[PartName(j)])
  }

  /** Reading part `k` extends the parts read. */
  lemma PartsReadStep(files: seq<RunFile>, disk: map<string, seq<Line>>, parts: seq<RunFile>, k: nat)
    requires k < NumGroups(|files|) && PartsRead(files, disk, parts, k) && PartHolds(disk, files, k)
    ensures PartsRead(files, disk, parts + [WholeFile(disk[PartName(k)])], k + 1)
  {
    var parts' := parts + [WholeFile(disk[PartName(k)])];
    forall j | 0 <= j < k + 1
      ensures PartHolds(disk, files, j) && parts'[j] == WholeFile(disk[PartName(j)])
    {
      if j < k {
        assert parts'[j] == parts[j];
      }
    }
  }


  /** The part files hold the lines of the groups. */
  lemma {:induction false} PartsBag(files: seq<RunFile>, disk: map<string, seq<Line>>, parts: seq<RunFile>, g: nat)
    requires g <= |parts| && g <= NumGroups(|files|)
    requires forall j :: 0 <= j < g ==> PartHolds(disk, files, j) && parts[j] == WholeFile(disk[PartName(j)])
    ensures Bag(Deliverables(parts), g) == GroupsBag(files, g)
  {
    if g > 0 {
      PartsBag(files, disk, parts, g - 1);
      var d, lines := Deliverables(parts), disk[PartName(g - 1)];
      assert PartHolds(disk, files, g - 1) && parts[g - 1] == WholeFile(lines);
      assert d[g - 1] == lines;
      var before, part := Bag(d, g - 1), GroupBag(files, g - 1);
      assert multiset(lines) == part;
      assert Bag(d, g) == before + part;
      assert GroupsBag(files, g) == GroupsBag(files, g - 1) + part;
    }
  }
}
