/**
 * The run cursor of the merge: a `chunkReader` holds a run file, the
 * scanner's position in it and a batch of lines read ahead. The scanner is
 * forward only: it hands out the file's lines in order. It reads more of
 * the file only once no whole line is left in what it holds, so a read
 * error strikes when all it holds is part of one line: it hands out that
 * part, if anything, as a line of its own, then stops for good. The error
 * is reported from the scan that meets it on.
 */
module Cursor {
  import opened Lines

  /** How many lines `fillBuffer` reads per batch during the merge. */
  const BufferLines: nat := 9000

  /**
   * A run file as the merge's scanner finds it: the lines the scanner hands
   * out, in order, whether opening the file fails, whether the scanner
   * meets a read error, and whether the last line it hands out is what it
   * held of the line that error cut, which it hands out together with the
   * error.
   */
  datatype RunFile = RunFile(lines: seq<Line>, openFails: bool, readFails: bool, cutLast: bool)

  /**
   * The run file the scanner finds in a file holding `content`: when `stop`
   * is below `|content|`, a read error strikes after `stop` whole lines,
   * when `cut` of the next one had been read, and the scanner hands out
   * `cut` as a line of its own unless it is empty.
   */
  function OnDisk(content: seq<Line>, openFails: bool, stop: nat, cut: Line): (f: RunFile)
    ensures f.openFails == openFails && (f.readFails <==> stop < |content|)
    ensures f.cutLast <==> stop < |content| && cut != []
    ensures f.cutLast ==> f.lines != [] && f.lines[|f.lines| - 1] == cut
  {
    if stop < |content| then RunFile(content[..stop] + (if cut == [] then [] else [cut]), openFails, true, cut != [])
    else RunFile(content, openFails, false, false)
  }

  /** The scanner hands out lines of the file, each at most as often as the
      file holds it, and after a read error the cut line, if any. */
  lemma OnDiskLines(content: seq<Line>, openFails: bool, stop: nat, cut: Line)
    ensures forall x :: x in OnDisk(content, openFails, stop, cut).lines ==>
      x in content || (x == cut && cut != [] && stop < |content|)
    ensures cut == [] || |content| <= stop ==> multiset(OnDisk(content, openFails, stop, cut).lines) <= multiset(content)
  {
    if stop < |content| {
      assert content == content[..stop] + content[stop..];
      if cut == [] {
        assert OnDisk(content, openFails, stop, cut).lines == content[..stop];
      }
    }
  }

  /** A sorted file that breaks, if at all, between two lines delivers its
      lines in ascending order. */
  lemma OnDiskSorted(content: seq<Line>, openFails: bool, stop: nat, cut: Line)
    requires Sorted(content) && (cut == [] || |content| <= stop)
    ensures Sorted(OnDisk(content, openFails, stop, cut).lines)
  {
    if stop < |content| {
      SortedPrefix(content, stop);
      assert OnDisk(content, openFails, stop, cut).lines == content[..stop];
    }
  }

  /** A sorted file cut inside a line can deliver its lines out of order:
      the cut line `[1]` comes after the longer line `[1, 1]`. */
  lemma TornUnsorted()
    ensures Sorted([[1, 1], [1, 2]])
    ensures !Sorted(OnDisk([[1, 1], [1, 2]], false, 1, [1]).lines)
  {
    var content: seq<Line> := [[1, 1], [1, 2]];
    LessLexicographic(content[0], content[1]);
    assert LexBefore(content[0], content[1]) by {
      assert content[0][..1] == content[1][..1];
    }
    var d := OnDisk(content, false, 1, [1]).lines;
    assert d == [[1, 1], [1]];
    LessLexicographic(d[1], d[0]);
    assert d[1] == d[0][..1];
    assert Less(d[1], d[0]);
  }

  /** A run file that opens and reads to its end without error: one the
      program wrote itself. */
  function WholeFile(lines: seq<Line>): (f: RunFile)
    ensures f == OnDisk(lines, false, |lines|, [])
  {
    RunFile(lines, false, false, false)
  }

  /** `chunkReader`: a run file, its scanner, and the lines read ahead. */
  class ChunkReader {
    /** The lines the scanner hands out, in order. */
    const lines: seq<Line>
    /** Whether the scanner meets a read error. */
    const readFails: bool
    /** Whether the last of the lines comes with that error. */
    const cutLast: bool
    const index: nat
    /** How many lines the scanner has read. */
    var pos: nat
    /** Whether the scanner has met a read error. */
    var failed: bool
    var buffer: seq<Line>

    /** The position never passes the lines there are, and an error is met
        only once the last of them is read, in a file that breaks. */
    ghost predicate ScannerValid()
      reads this
    {
      && pos <= |lines|
      && (failed ==> pos == |lines| && readFails)
    }

    /** Besides, the buffer holds the lines just before the position. */
    ghost predicate Valid()
      reads this
    {
      && ScannerValid()
      && |buffer| <= pos && buffer == lines[pos - |buffer|..pos]
    }

    /** The lines this reader will still hand out, in order: the buffer,
        then what the scanner has not read yet. */
    ghost function Pending(): seq<Line>
      reads this
      requires Valid()
    {
      buffer + lines[pos..]
    }

    /** Opens `f` as reader number `index`: nothing read yet. */
    constructor (f: RunFile, index: nat)
      ensures this.lines == f.lines && this.readFails == f.readFails && this.cutLast == f.cutLast
      ensures this.index == index
      ensures Valid() && pos == 0 && !failed && buffer == []
      ensures Pending() == f.lines
    {
      this.lines := f.lines;
      this.readFails := f.readFails;
      this.cutLast := f.cutLast;
      this.index := index;
      pos := 0;
      failed := false;
      buffer := [];
    }

    /** `scanner.Scan`: advances to the next line if there is one to read,
        meeting the read error along with a cut last line; past the last
        line it fails, with an error if the file breaks, and stays failed. */
    method Scan() returns (ok: bool)
      requires ScannerValid()
      modifies this
      ensures ScannerValid() && buffer == old(buffer)
      ensures ok <==> old(pos) < |lines|
      ensures ok ==> pos == old(pos) + 1 && (failed <==> cutLast && readFails && pos == |lines|)
      ensures !ok ==> pos == old(pos) && failed == readFails
    {
      if failed || pos == |lines| {
        failed := readFails;
        ok := false;
      } else {
        pos := pos + 1;
        if cutLast && pos == |lines| {
          failed := readFails;
        }
        ok := true;
      }
    }

    /** `scanner.Bytes`: the line the last successful `Scan` read. */
    function Bytes(): Line
      reads this
      requires 0 < pos <= |lines|
    {
      lines[pos - 1]
    }

    /** `scanner.Err`: whether the scanner has met a read error. */
    function Err(): (e: bool)
      reads this
      ensures ScannerValid() && e ==> pos == |lines| && readFails
    {
      failed
    }

    /**
     * `fillBuffer`: empties the buffer and reads up to `count` further
     * lines into it. The buffer then holds exactly the next
     * `min(count, remaining)` lines of the file, the position moves forward
     * by that many, and the result reports whether a read error was met:
     * before, or now because the batch comes up short or ends with a cut
     * last line.
     */
    method FillBuffer(count: nat) returns (err: bool)
      requires Valid()
      modifies this
      ensures Valid()
      ensures |buffer| == (if count < old(|lines| - pos) then count else old(|lines| - pos))
      ensures pos == old(pos) + |buffer|
      ensures buffer == lines[old(pos)..pos]
      ensures Pending() == lines[old(pos)..]
      ensures err == failed
      ensures failed == (old(failed) || (readFails && (old(|lines| - pos) < count || (cutLast && 0 < count == old(|lines| - pos)))))
    {
      buffer := [];
      while |buffer| < count
        invariant ScannerValid()
        invariant pos == old(pos) + |buffer| && |buffer| <= count
        invariant buffer == lines[old(pos)..pos]
        invariant failed == (old(failed) || (readFails && cutLast && old(pos) < pos == |lines|))
        decreases count - |buffer|
      {
        var more := Scan();
        if !more {
          break;
        }
        buffer := buffer + [Bytes()];
      }
      err := Err();
    }

    /** `r.buffer[0]` then `r.buffer = r.buffer[1:]`: takes the first line
        of the buffer, if there is one. */
    method TakeHead() returns (line: Option<Line>)
      requires Valid()
      modifies this
      ensures Valid() && pos == old(pos) && failed == old(failed)
      ensures old(buffer) == [] ==> line == None && buffer == []
      ensures old(buffer) != [] ==> line == Some(old(buffer)[0]) && buffer == old(buffer)[1..]
      ensures old(Pending()) == (if line.Some? then [line.value] else []) + Pending()
    {
      if |buffer| > 0 {
        line := Some(buffer[0]);
        buffer := buffer[1..];
      } else {
        line := None;
      }
    }

    /**
     * What the merge loop does with the reader whose line it has just
     * written: refills the buffer when it is empty, ignoring any read error,
     * then takes its first line. The result is the next line the reader
     * still had to hand out, and there is none only when it had none left.
     */
    method Next() returns (line: Option<Line>)
      requires Valid()
      modifies this
      ensures Valid()
      ensures line.None? <==> old(Pending()) == []
      ensures old(Pending()) == (if line.Some? then [line.value] else []) + Pending()
    {
      if |buffer| == 0 {
        var _ := FillBuffer(BufferLines);
      }
      line := TakeHead();
    }
  }
}
