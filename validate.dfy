/**
 * The record validator: every input line is trimmed of surrounding white
 * space and kept only when what remains is exactly `StrLength` bytes long.
 * Malformed lines are dropped silently; they are not an error.
 */
module Validate {
  import opened Lines

  /** Length of a record, in bytes. */
  const StrLength: int := 32

  /** ASCII white space as `bytes.TrimSpace` treats it: tab, newline,
      vertical tab, form feed, carriage return and space. */
  predicate IsSpace(b: byte)
  {
    (9 <= b <= 13) || b == 32
  }

  /** `s` without its leading white space. */
  function TrimLeft(s: Line): Line
  {
    if s != [] && IsSpace(s[0]) then TrimLeft(s[1..]) else s
  }

  /** `s` without its trailing white space. */
  function TrimRight(s: Line): Line
  {
    if s != [] && IsSpace(s[|s| - 1]) then TrimRight(s[..|s| - 1]) else s
  }

  /** `bytes.TrimSpace`: `s` without its leading and trailing white space. */
  function TrimSpace(s: Line): Line
  {
    TrimRight(TrimLeft(s))
  }

  /** `TrimLeft` removes a prefix of white space and stops at the first
      other byte. */
  lemma {:induction false} TrimLeftShape(s: Line)
    ensures |TrimLeft(s)| <= |s| && TrimLeft(s) == s[|s| - |TrimLeft(s)|..]
    ensures forall k :: 0 <= k < |s| - |TrimLeft(s)| ==> IsSpace(s[k])
    ensures TrimLeft(s) == [] || !IsSpace(TrimLeft(s)[0])
  {
    if s != [] && IsSpace(s[0]) {
      var t := s[1..];
      TrimLeftShape(t);
      var m := |TrimLeft(t)|;
      assert TrimLeft(s) == TrimLeft(t) == t[|t| - m..] == s[|s| - m..];
      forall k | 0 <= k < |s| - m
        ensures IsSpace(s[k])
      {
        if k > 0 {
          assert s[k] == t[k - 1];
        }
      }
    }
  }

  /** `TrimRight` removes a suffix of white space and stops at the last
      other byte. */
  lemma {:induction false} TrimRightShape(s: Line)
    ensures |TrimRight(s)| <= |s| && TrimRight(s) == s[..|TrimRight(s)|]
    ensures forall k :: |TrimRight(s)| <= k < |s| ==> IsSpace(s[k])
    ensures TrimRight(s) == [] || !IsSpace(TrimRight(s)[|TrimRight(s)| - 1])
  {
    if s != [] && IsSpace(s[|s| - 1]) {
      TrimRightShape(s[..|s| - 1]);
    }
  }

  /** What `TrimSpace` cuts off is white space, and only that: the result
      is a slice of `s`, everything before and after it is white space, and
      it neither starts nor ends with white space. */
  lemma TrimSpaceInfix(s: Line) returns (i: nat, j: nat)
    ensures i <= j <= |s| && TrimSpace(s) == s[i..j]
    ensures forall k :: 0 <= k < i ==> IsSpace(s[k])
    ensures forall k :: j <= k < |s| ==> IsSpace(s[k])
    ensures TrimSpace(s) == [] || (!IsSpace(TrimSpace(s)[0]) && !IsSpace(TrimSpace(s)[|TrimSpace(s)| - 1]))
  {
    var l := TrimLeft(s);
    TrimLeftShape(s);
    TrimRightShape(l);
    var r := TrimRight(l);
    i, j := |s| - |l|, |s| - |l| + |r|;
    assert r == s[i..j];
    forall k | j <= k < |s|
      ensures IsSpace(s[k])
    {
      assert s[k] == l[k - i];
    }
  }

  /** Trimming a padded trimmed line gives the line back. */
  lemma TrimSpacePadded(pre: Line, x: Line, post: Line)
    requires forall k :: 0 <= k < |pre| ==> IsSpace(pre[k])
    requires forall k :: 0 <= k < |post| ==> IsSpace(post[k])
    requires x == [] || (!IsSpace(x[0]) && !IsSpace(x[|x| - 1]))
    requires x != [] || post == []
    ensures TrimSpace(pre + x + post) == x
  {
    assert pre + x + post == pre + (x + post);
    TrimLeftPadded(pre, x + post);
    TrimRightPadded(x, post);
  }

  lemma {:induction false} TrimLeftPadded(pre: Line, rest: Line)
    requires forall k :: 0 <= k < |pre| ==> IsSpace(pre[k])
    requires rest == [] || !IsSpace(rest[0])
    ensures TrimLeft(pre + rest) == rest
  {
    if pre != [] {
      assert (pre + rest)[1..] == pre[1..] + rest;
      TrimLeftPadded(pre[1..], rest);
    } else {
      assert pre + rest == rest;
    }
  }

  lemma {:induction false} TrimRightPadded(x: Line, post: Line)
    requires forall k :: 0 <= k < |post| ==> IsSpace(post[k])
    requires x == [] || !IsSpace(x[|x| - 1])
    ensures TrimRight(x + post) == x
  {
    if post != [] {
      assert (x + post)[..|x + post| - 1] == x + post[..|post| - 1];
      TrimRightPadded(x, post[..|post| - 1]);
    } else {
      assert x + post == x;
    }
  }

  /** The record one input line contributes, if any (the `len(line) > 0`
      test and the length check of the reading loop). */
  function Clean(line: Line): (r: Option<Line>)
    ensures r.Some? ==> |r.value| == StrLength && r.value == TrimSpace(line)
    ensures r.None? ==> |TrimSpace(line)| != StrLength
  {
    if |line| > 0 then
      var clean := TrimSpace(line);
      if |clean| == StrLength then Some(clean) else None
    else None
  }

  /** The records one input line contributes: none or one. */
  function Record(line: Line): (r: seq<Line>)
    ensures |r| <= 1
  {
    if Clean(line).Some? then [Clean(line).value] else []
  }

  /** The records of the first `n` input lines, in input order. */
  function Kept(lines: seq<Line>, n: nat): (r: seq<Line>)
    requires n <= |lines|
    ensures |r| <= n
  {
    if n == 0 then []
    else Kept(lines, n - 1) + Record(lines[n - 1])
  }

  lemma KeptStep(lines: seq<Line>, n: nat)
    requires n < |lines|
    ensures Kept(lines, n + 1) == Kept(lines, n) + Record(lines[n])
  {
  }

  /** Every kept record is the trimmed form of some input line and is
      `StrLength` bytes long. */
  lemma {:induction false} KeptFromInput(lines: seq<Line>, n: nat, x: Line) returns (k: nat)
    requires n <= |lines| && x in Kept(lines, n)
    ensures k < n && |x| == StrLength && TrimSpace(lines[k]) == x
  {
    if x in Kept(lines, n - 1) {
      k := KeptFromInput(lines, n - 1, x);
    } else {
      k := n - 1;
    }
  }

  /** Every input line whose trimmed form is `StrLength` bytes long is kept. */
  lemma {:induction false} InputKept(lines: seq<Line>, n: nat, k: nat)
    requires k < n <= |lines| && |TrimSpace(lines[k])| == StrLength
    ensures TrimSpace(lines[k]) in Kept(lines, n)
  {
    if k < n - 1 {
      InputKept(lines, n - 1, k);
    } else {
      assert Record(lines[k]) == [TrimSpace(lines[k])];
    }
  }

  /** Lines after the first `n` do not change the records of the first `n`. */
  lemma {:induction false} KeptPrefix(lines: seq<Line>, more: seq<Line>, n: nat)
    requires n <= |lines|
    ensures Kept(lines + more, n) == Kept(lines, n)
  {
    if n > 0 {
      KeptPrefix(lines, more, n - 1);
      assert (lines + more)[n - 1] == lines[n - 1];
    }
  }
}
