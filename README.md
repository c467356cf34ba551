# External merge sort of fixed-length records, modelled in Dafny

The program sorts a large text file of 32-byte alphanumeric records in two
phases.

- **Split.** A reading loop trims every input line, keeps those that are
  exactly 32 bytes long, and gathers them into chunks of at most 500 000
  records. A pool of workers sorts each chunk with `sort.Strings` and writes
  it out as a run file.
- **Merge.** `mergeChunks` opens a `chunkReader` on every run, seeds the
  min-heap `minHeapBuffered` with each run's first line, and then pops the
  smallest line, writes it, and pushes the next line of the same run. The
  reader refills its batch of 9000 lines with `fillBuffer` whenever the batch
  runs dry.
- **Grouped merge.** The variant in `optimized_3.go`,
  `mergeChunksParallelGrouped`, merges the runs in groups of 16 into part
  files `part_NN` and then copies the parts one after the other into the
  output.

The model follows the code's own shape:

- The reading loop, `fillBuffer`, the heap and both merge loops are
  imperative Dafny: methods with loops and invariants.
- `chunkReader` and `minHeapBuffered` are classes whose methods update their
  fields in place.
- Validation, sorting, the worker pool and the group arithmetic are
  functions over values.
- Lines are byte sequences ordered the way Go orders strings (`Lines.Less`).
- Run files are values. `Cursor.RunFile` holds the lines the merge's
  scanner hands out, whether opening the file fails, and whether a read
  error follows the last of those lines. `Cursor.OnDisk` builds it from the
  file's lines, the number of whole lines read before a read error, and
  what was read of the line the error cut. `bufio.Scanner` hands out that
  cut line as a line of its own before it stops.
- Errors are results (`Lines.Error`), never preconditions.

Both files are covered.

- The split loop, the worker body, the heap, `fillBuffer` and `mergeChunks`
  appear in both, nearly word for word. `mergeChunks` in `optimized.go`
  globs its run list, while the one in `optimized_3.go` takes the list as a
  parameter; `Merge.MergeChunks` takes the list.
- `Pipeline.SortFile` composes the split, the workers and the flat merge, as
  `main` in `optimized.go` does. Its parameters say which run files cannot
  be created, cannot be opened, or stop with a read error
  (`Pipeline.RunFiles`), so every error the merge can report is reachable.
- `Grouped` models `mergeChunksParallelGrouped` as written, including its
  concatenation of the parts (see Findings).

## Model

| member | source | states |
|---|---|---|
| Lines.Less | optimized/optimized.go:33 | Go's `<` on strings, byte by byte with a proper prefix first |
| Lines.LessLexicographic | optimized/optimized.go:33 | `Less` is exactly the order Go defines for strings: a proper prefix, or a smaller byte at the first position where the two differ |
| Lines.LessTransitive | optimized/optimized_3.go:26 | Go's string `<` on byte strings is transitive |
| Lines.LeTotalOrder | optimized/optimized.go:33 | `<=` derived from `Less` is a total order: reflexive, total, antisymmetric, transitive |
| Sorting.SortLinesSpec | optimized/optimized.go:122 | `sort.Strings` on a job's lines yields an ascending permutation of them |
| Sorting.SortedPermutationUnique | optimized/optimized_3.go:97 | two ascending permutations of the same lines are equal, so any correct sort gives the same run |
| Sorting.SortLinesCharacterised | optimized/optimized_3.go:97 | a sequence is the sorted form of some lines exactly when it is ascending and has the same lines |
| Validate.TrimSpace | optimized/optimized_3.go:121 | `bytes.TrimSpace`: white space cut from both ends (its contract is in `TrimSpaceInfix` and `TrimSpacePadded`) |
| Validate.TrimSpaceInfix | optimized/optimized_3.go:121 | `bytes.TrimSpace` returns a slice of the line; everything cut on either side is white space and the result neither starts nor ends with white space |
| Validate.TrimSpacePadded | optimized/optimized_3.go:121 | trimming a line that is a core padded with white space gives back exactly that core |
| Validate.Clean | optimized/optimized.go:146-152 | a line yields a record iff its trimmed form is exactly 32 bytes, and the record is that trimmed form |
| Validate.KeptFromInput | optimized/optimized.go:146-152 | every kept record is the trimmed form, 32 bytes long, of an earlier input line |
| Validate.InputKept | optimized/optimized.go:146-152 | every input line whose trimmed form is 32 bytes contributes that record |
| Validate.KeptPrefix | optimized/optimized_3.go:114-126 | the records of the first `n` lines do not depend on later lines |
| Split.SplitChunks | optimized/optimized.go:140-173 | on EOF the jobs have ids 0,1,2,…, are non-empty, hold at most 500 000 records, are full except the last, and their lines in id order are exactly the kept records, the final partial chunk included; on a read error it stops with full jobs covering a prefix of the kept records; the byte counter stays 33 times the chunk length |
| Split.Feed | optimized/optimized_3.go:115-137 | one pass of the reading loop over a line: keep its record, and seal the chunk as the next job on the byte or record threshold or at EOF (its contract is in `FeedShape`) |
| Split.FeedShape | optimized/optimized_3.go:128-137 | one pass of the loop keeps every sent job full and the chunk below 500 000 records; at EOF the chunk is flushed and left empty |
| Split.FoldShape | optimized/optimized_3.go:114-141 | after any number of lines the jobs sent, followed by the open chunk, are exactly the records kept so far |
| Split.SealStep | optimized/optimized_3.go:128-136 | sealing appends a job with the next id whose lines are the chunk, so the records extend by exactly the chunk |
| Split.WellChunkedCount | optimized/optimized_3.go:128-137 | the number of jobs is the number of records divided by 500 000, rounded up |
| Split.SizeThresholdUnreachable | optimized/optimized_3.go:124-128 | while the open chunk holds fewer than 500 000 records, as the loop keeps it, one pass of the loop does exactly what it would do without the 100 MiB byte test |
| Split.FoldIgnoresSize | optimized/optimized_3.go:114-141 | over any input, the reading loop reaches the same jobs and chunk as the loop without the byte test |
| Split.RecordsPrefix | optimized/optimized.go:155-166 | sending later jobs never changes the lines of jobs already sent |
| Split.Spill | optimized/optimized.go:121-135 | the worker pool writes at most one run per job, in job order, skipping the jobs whose run file cannot be created |
| Split.SpillSorted | optimized/optimized.go:121-135 | every run a worker writes is ascending |
| Split.SpillRuns | optimized/optimized.go:121-135 | when every run file is created, run `k` is the sorted form of job `k` |
| Split.SpillBag | optimized/optimized.go:121-135 | when every run file is created, the runs hold exactly the jobs' records |
| Split.SpillSubBag | optimized/optimized_3.go:96-110 | the runs hold only records of the jobs, never more often: a failed create loses lines but adds none |
| Split.SpillLosesFailedJob | optimized/optimized_3.go:99-103 | a job whose run file cannot be created loses its records while the phase still succeeds |
| MinHeap.RootIsMin | optimized/optimized_3.go:23-35 | in a heap-ordered slice the first item's value is at most every item's value |
| MinHeap.MinHeapBuffered.constructor | optimized/optimized_3.go:175-176 | `&minHeapBuffered{}` followed by `heap.Init` gives an empty heap |
| MinHeap.MinHeapBuffered.Len | optimized/optimized_3.go:25 | `Len` is the number of items |
| MinHeap.MinHeapBuffered.Less | optimized/optimized_3.go:26 | compares the values of two items with Go's string `<` |
| MinHeap.MinHeapBuffered.Swap | optimized/optimized_3.go:27 | `Swap` exchanges two items and keeps the multiset |
| MinHeap.MinHeapBuffered.Push | optimized/optimized_3.go:28 | `Push` appends one item |
| MinHeap.MinHeapBuffered.Pop | optimized/optimized_3.go:29-35 | `Pop` removes and returns the last item |
| MinHeap.MinHeapBuffered.SiftUp | optimized/optimized.go:238 | restores heap order after an append, keeping the items |
| MinHeap.MinHeapBuffered.SiftDown | optimized/optimized.go:253 | restores heap order below a hole, keeping the items and leaving the tail alone |
| MinHeap.MinHeapBuffered.HeapPush | optimized/optimized_3.go:179 | `heap.Push`, here and at line 199, keeps heap order, adds exactly the item and grows the length by one |
| MinHeap.MinHeapBuffered.HeapPop | optimized/optimized_3.go:192 | `heap.Pop` returns an item whose value is at most every remaining value, removes exactly it, keeps heap order and shrinks the length by one |
| Cursor.OnDisk | optimized/optimized_3.go:149-152 | the scanner's view of a file: it opens as the file does, an error is met exactly when a read error strikes before the file's end, and the last line handed out comes with that error exactly when the error cut a line and something of it was read, that something being the line (what it hands out is in `OnDiskLines` and `OnDiskSorted`) |
| Cursor.OnDiskLines | optimized/optimized_3.go:149-150 | the scanner hands out only lines of the file, and after a read error at most one more, the cut line; when no line is cut it hands out each line at most as often as the file holds it |
| Cursor.OnDiskSorted | optimized/optimized_3.go:149-150 | a sorted file read to its end, or broken between two lines, is handed out in ascending order |
| Cursor.TornUnsorted | optimized/optimized_3.go:149-150 | a sorted file whose read error cuts a line can be handed out out of order: the cut line is a proper prefix of the line before it |
| Cursor.WholeFile | optimized/optimized.go:121-135 | a run the program wrote itself opens and reads back whole: it is the file seen with no error |
| Cursor.ChunkReader.constructor | optimized/optimized_3.go:161-163 | a new reader has an empty buffer and the scanner at the start, and will hand out exactly the lines the file's scanner hands out |
| Cursor.ChunkReader.Scan | optimized/optimized_3.go:149 | the scanner advances by one line while lines remain, and meets the read error on the scan that hands out a cut last line; past the last line it fails, records an error exactly when the file breaks, and stays failed |
| Cursor.ChunkReader.Bytes | optimized/optimized_3.go:150 | `scanner.Bytes`: the line the last successful scan read |
| Cursor.ChunkReader.Err | optimized/optimized_3.go:152 | `scanner.Err`: an error is reported only after the scanner has handed out its last line, and only for a file that breaks |
| Cursor.ChunkReader.FillBuffer | optimized/optimized_3.go:147-153 | the buffer becomes exactly the next `min(count, remaining)` lines in stream order and the position advances by that many; an error is returned exactly when one was met before, or the file breaks and either fewer than `count` lines remained or exactly `count` remained and the last is a cut line |
| Cursor.ChunkReader.TakeHead | optimized/optimized_3.go:179-182 | taking the buffer head hands out the next pending line and keeps the rest |
| Cursor.ChunkReader.Next | optimized/optimized_3.go:194-201 | refilling on an empty buffer, then taking the head, hands out the next pending line, or nothing exactly when the run is exhausted |
| Merge.SetupErrorFirst | optimized/optimized_3.go:157-169 | setup fails iff some run cannot be opened or its first batch meets a read error (the batch comes up short, or ends with the cut line), and the error is that of the first such run |
| Merge.FirstFillOnDisk | optimized/optimized_3.go:164-166 | a run's first batch of 9000 lines meets a read error exactly when the error strikes within the first 9000 whole lines, whether or not it cuts a line |
| Merge.CutFirstBatch | optimized/optimized_3.go:164-166 | a run of 8999 whole lines followed by a cut line fails to open with a read error: the full first batch ends with the cut line, which comes with the error |
| Merge.WholeFilesOpen | optimized/optimized_3.go:157-169 | runs the program wrote itself never fail setup |
| Merge.OpenReaders | optimized/optimized.go:204-225 | the error is the first setup failure; otherwise reader `k` has index `k`, is fresh, and holds all of run `k` with its first batch read |
| Merge.OpenOne | optimized/optimized_3.go:162-166 | a fresh reader reads its first batch, fails exactly as `FirstFillFails` says, and otherwise holds all of its run, its buffer empty only when the run is |
| Merge.SeedOne | optimized/optimized.go:237-240 | a non-empty reader's first line moves into the heap, and no other reader changes |
| Merge.SeedHeap | optimized/optimized.go:236-241 | after seeding, the heap holds exactly the first line of every non-empty run, and each reader holds the rest of its run |
| Merge.HeadsMember | optimized/optimized_3.go:177-183 | every heap entry is the first unconsumed line of the run it names |
| Merge.HeadsCount | optimized/optimized.go:236-271 | the heap holds at most one entry per reader, and it is that reader's first unconsumed line (its smallest when the run hands out its lines in order) |
| Merge.Refill | optimized/optimized_3.go:194-201 | the popped line's reader hands out its next line, which goes into the heap, or nothing when its run is exhausted |
| Merge.DrainStep | optimized/optimized_3.go:192-202 | writing the heap's minimum keeps the merge state: output plus what is left equals the runs, and with sorted runs the output stays ascending below everything left |
| Merge.DrainOne | optimized/optimized_3.go:192-202 | one pass of the main loop keeps heap order, readers and merge state, and strictly reduces what is left |
| Merge.DrainDone | optimized/optimized_3.go:192 | once the heap is empty every line has been written, in order when the runs are sorted |
| Merge.Drain | optimized/optimized.go:252-271 | the main loop writes every remaining line exactly once, in ascending order when every run is ascending |
| Merge.MergeChunks | optimized/optimized_3.go:155-204 | an open or first-batch failure is reported as the first failing run's error, and a create failure of the output as an output error; otherwise the output is a permutation of all the lines the readers hand out, a line a read error cut included, and ascending when every run hands out its lines in order |
| Grouped.NumGroups | optimized/optimized_3.go:213 | `numGroups`, the number of groups of 16 for `n` run files |
| Grouped.NumGroupsCeil | optimized/optimized_3.go:213 | `numGroups` is `n / 16` rounded up: just enough groups of 16 to hold `n` files |
| Grouped.GroupEnd | optimized/optimized_3.go:220-224 | a group's `end`: 16 past its start, cut back to the number of files |
| Grouped.GroupBounds | optimized/optimized_3.go:219-225 | group `i` starts before it ends, lies inside the files and holds at most 16 files; every group but the last holds exactly 16 |
| Grouped.Group | optimized/optimized_3.go:220-225 | every group is non-empty and holds at most 16 files |
| Grouped.GroupsPartition | optimized/optimized_3.go:212-225 | the `ceil(n/16)` groups are non-empty, hold at most 16 files, and together in index order are the files |
| Grouped.JoinedPrefix | optimized/optimized_3.go:219-225 | the first `g` groups in order are the files up to the end of group `g-1` |
| Grouped.PartName | optimized/optimized_3.go:226 | `fmt.Sprintf("part_%02d", i)` (its contract is in `PartNameRoundTrip`, `PartNamesDistinct` and `PartNameWidth`) |
| Grouped.PartNameRoundTrip | optimized/optimized_3.go:226 | the group number can be read back from `part_%02d` |
| Grouped.PartNamesDistinct | optimized/optimized_3.go:226-227 | different groups get different part names |
| Grouped.PartNameWidth | optimized/optimized_3.go:226 | below 100 groups every part name has exactly two digits |
| Grouped.GroupsBagPrefix | optimized/optimized_3.go:219-225 | the first `g` groups hold the lines of the files up to the end of group `g-1` |
| Grouped.GroupsBagAll | optimized/optimized_3.go:212-225 | all groups together hold every line of the runs, each as often |
| Grouped.ErrorsEmpty | optimized/optimized_3.go:229-242 | no error is collected exactly when no group fails |
| Grouped.MergeGroup | optimized/optimized_3.go:229-235 | a group's merge fails exactly when one of its runs fails setup or its part cannot be written; otherwise its part holds the group's lines, sorted when its runs are, and nothing else on disk changes |
| Grouped.MergeNext | optimized/optimized_3.go:219-236 | each pass collects group `i`'s error in order and leaves the earlier parts as they were |
| Grouped.MergeGroups | optimized/optimized_3.go:212-240 | `tempFiles[i]` is `part_%02d(i)`, the errors are those of the failing groups in group order, and every group that did not fail has its part on disk |
| Grouped.CopyPart | optimized/optimized_3.go:251-262 | copying part `k` appends exactly that part's lines to the output and removes its file and nothing else from disk; the output keeps all lines of the parts copied so far, and every later part is still on disk |
| Grouped.CopyNext | optimized/optimized_3.go:251-262 | one pass of the copy loop also keeps the output equal to the parts copied so far joined in group order |
| Grouped.JoinedStep | optimized/optimized_3.go:251-262 | appending part `k`'s lines keeps the output equal to the first `k + 1` parts joined, each holding its group's lines |
| Grouped.CopyParts | optimized/optimized_3.go:251-262 | the copy loop writes every part in group order: the output is the parts joined, each part holding its group's lines (sorted when that group's runs are), so the output holds every run line exactly once |
| Grouped.MergeGrouped | optimized/optimized_3.go:206-264 | any group error is returned before the output is created; otherwise, for any runs, the output is the group parts joined in group order, each part holding exactly its group's lines, so the output holds every run line exactly once; with sorted runs it is each group's sorted lines group after group |
| Grouped.GroupedUnsorted | optimized/optimized_3.go:251-262 | when a line of the first group is above a line of the second, the concatenated output is not sorted |
| Grouped.GroupedCounterexample | optimized/optimized_3.go:251-262 | seventeen sorted runs exist on which the written output is not sorted |
| Grouped.MergeGroupedSorted | optimized/optimized_3.go:244-263 | with the parts combined by the k-way merge instead, the same errors are reported and the output is a permutation of all run lines, ascending when every run is |
| Pipeline.RunFiles | optimized/optimized.go:204-225 | the run files as the merge finds them: each fails to open exactly when named in `openFails`, breaks only when named in `readable`, hands out its run's lines when not named there, and reads back whole when named in neither |
| Pipeline.MergeRuns | optimized/optimized.go:197-273 | over the runs the workers wrote, a run error names a run that cannot be opened or read back, and with no such run only the output can fail; a successful output holds only run lines and cut lines; with no cut line it is sorted and holds run lines at most as often as the runs do, and all of them when every run reads back whole |
| Pipeline.MergedLines | optimized/optimized.go:236-271 | merging readers that each hand out lines of their run or cut lines gives only such lines; when no reader hands out more of a line than its run holds, the output holds no line more often than the runs do |
| Pipeline.RunCuts | optimized/optimized.go:211-223 | run `k` hands out only its own lines and its cut line; when no line is cut, each at most as often as the run holds it |
| Pipeline.RunUncut | optimized/optimized.go:211-223 | when no read error cuts a line, a sorted run is handed out in ascending order |
| Pipeline.SortFile | optimized/optimized.go:80-88 | a read error on the input stops the sort; a run error names a run that cannot be opened or read back, and with none only the output can fail; otherwise the output holds only input records and cut lines; with no cut line it is ascending and holds input records at most as often as the input does; when every run file is created and read back whole it is exactly the input's records in sorted order |

## Left out

- File and OS I/O is not modelled: opening, creating, removing and buffering
  files, `bufio` sizes, `filepath.Glob` and the `chunk_%03d` names. Run and
  part files are values, and the run list is passed in, in id order.
  `filepath.Glob` sorts the names as strings, so from id 1000 on its order
  is not id order (`chunk_1000.txt` comes before `chunk_101.txt`). The flat
  merge gives the same output in any run order only when the runs are
  sorted (by `Sorting.SortedPermutationUnique`). The grouped merge depends
  on the order as written: it decides which runs share a group and the
  order of the joined parts.
- Split.RecordsPrefix: the loop sends a copy of the chunk and then reuses
  the chunk's storage (`chunk[:0]`). Sequences are values in the model, so
  this in-place reuse, and the aliasing the copy guards against, is not
  modelled.
- Concurrency is not modelled: the worker pool, the channel, `WaitGroup`
  and the group goroutines. The workers run over the jobs in order and the
  groups run one after the other.
- `main`, timing and printing are left out. `Pipeline.SortFile` models only
  what `main` composes.
- `sort.Strings` is not modelled; an insertion sort stands in for it.
  `Sorting.SortedPermutationUnique` shows any correct sort gives the same run.
- `container/heap` is not shown in the source. Its `Push`/`Pop`/up/down are
  written out in `MinHeap`. `heap.Init` on the empty heap has nothing to
  reorder; the constructor gives the empty heap it leaves.
- `bytes.TrimSpace` is modelled over ASCII white space only. Unicode white
  space beyond ASCII is not modelled.
- Scanner limits (`bufio.Scanner`'s maximum token size) are not modelled.
  A read error on a run is given by the number of whole lines read before
  it and what was read of the next line (`Cursor.OnDisk`). The scanner
  reads more only once it holds no whole line. Its `bufio.Reader`, of
  256 KiB or 512 KiB, is larger than any buffer the scanner asks it to
  fill, so it hands over what it holds before the error. The error
  therefore strikes when the scanner holds at most part of one line. The
  scan that meets the error hands out that part, if anything, and `Err`
  reports the error from that scan on.
- The workers ignore the result of their `writer.Flush()`, so a write error
  on a run file goes unreported. It is not modelled; only the failure to
  create a run file is.
- Merge.MergeChunks: a read error met while refilling a buffer after the
  first batch is swallowed, as in the source. The rest of that run is lost
  and the merge still succeeds. The lines a reader hands out are the whole
  lines read before the error, then the cut line if any, which is written
  like any other line. Sortedness is promised only when every reader hands
  out its lines in order, and a cut line can break that order
  (`Cursor.TornUnsorted`).
- Merge.MergeChunks: `outputFails` stands for both a failed `os.Create` and a
  failed final `Flush`. In both cases the model reports `OutputError`.
  `bufio.Writer` keeps the first failed write and returns it from that
  final `Flush`, so a failed line write is also an `outputFails` case.
- Pipeline.MergeRuns: sortedness, and "only run lines, never more often",
  are promised only when no read error cuts a line (`Pipeline.Uncut`). A
  cut line is written like any other line. It can be out of order
  (`Cursor.TornUnsorted`) and is not a line of the run.
- Pipeline.SortFile: as for `Pipeline.MergeRuns`, sortedness and "only
  input records" are promised only when no read error cuts a line.
- Pipeline.SortFile: a run error carries the run's position in the run
  list. The program's error carries the file's path instead.
- Grouped.MergeGrouped: when several groups fail, the model reports the
  lowest-numbered group's error. The program returns whichever error reached
  `errChan` first, which depends on goroutine timing.
- Grouped.MergeGrouped: a run error carries the run's position within its
  group (`k` for the group's `k`-th file), not its position in the whole run
  list. The program's error carries the file's path instead.
- Grouped.MergeGroup: a part is sorted only when every run of the group
  hands out its lines in order. A read error that cuts a line can break
  that order even in a sorted file (`Cursor.TornUnsorted`).
- Grouped.MergeGrouped: likewise, the per-group sortedness of the output
  depends on every run handing out its lines in order.
- Grouped.MergeGroupedSorted: likewise, the output is sorted only when every
  run hands out its lines in order.
- Grouped.MergeGrouped: a failure to open or copy a part file is folded into
  `outputFails`. The parts the program wrote itself are always readable in
  the model.

## Findings

| source | as written | input that shows it | evidently intended | confidence | as-written member | corrected member |
|---|---|---|---|---|---|---|
| optimized/optimized_3.go:251-262 | the final output is the part files copied one after the other, each part sorted only within its group | 17 sorted runs: run 0 holds `[1]`, runs 1–15 are empty, run 16 (alone in group 1) holds `[0]`; the output is `[1], [0]` | a sorted output, as from `mergeChunks` over all runs: a final k-way merge of the parts | not executed | Grouped.MergeGrouped, Grouped.GroupedUnsorted, Grouped.GroupedCounterexample | Grouped.MergeGroupedSorted |
