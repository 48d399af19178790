/** `_emit_uncovered`: chunks for the lines no boundary chunk covers. */
module Gaps {
  import opened Lists

  const MIN_CHUNK_CHARS: nat := 64

  /** Lines `first` to `last`, counted from 1, both included. */
  datatype Range = Range(first: nat, last: nat)

  /** The ranges boundary chunks report lie within the file and hold at least a line. */
  predicate WithinFile(ranges: seq<Range>, lines: nat) {
    forall r :: r in ranges ==> 1 <= r.first <= r.last <= lines
  }

  predicate Covered(ranges: seq<Range>, line: nat) {
    exists r :: r in ranges && r.first <= line <= r.last
  }

  /** A longest run of lines no range touches. */
  predicate MaximalGap(ranges: seq<Range>, lines: nat, gap: Range) {
    && 1 <= gap.first <= gap.last <= lines
    && (forall line :: gap.first <= line <= gap.last ==> !Covered(ranges, line))
    && (gap.first == 1 || Covered(ranges, gap.first - 1))
    && (gap.last == lines || Covered(ranges, gap.last + 1))
  }

  // ------------------------------------------------------------ sorted()

  predicate Precedes(a: Range, b: Range) {
    a.first < b.first || (a.first == b.first && a.last <= b.last)
  }

  ghost predicate Ordered(ranges: seq<Range>) {
    forall i, j :: 0 <= i < j < |ranges| ==> ranges[i].first <= ranges[j].first
  }

  lemma SortOrders(ranges: seq<Range>)
    ensures Ordered(Sort(ranges, Precedes))
    ensures forall r :: r in Sort(ranges, Precedes) <==> r in ranges
  {
    SortSorts(ranges, Precedes);
    SortKeeps(ranges, Precedes);
    SameMembers(Sort(ranges, Precedes), ranges);
  }

  // ------------------------------------------------------------ the sweep over the lines

  /** The first line past the first `n` ranges. */
  function Cursor(covered: seq<Range>, n: nat): nat
    requires n <= |covered|
  {
    if n == 0 then 1
    else if Cursor(covered, n - 1) < covered[n - 1].last + 1 then covered[n - 1].last + 1
    else Cursor(covered, n - 1)
  }

  function Emitting(chunks: seq<Range>, gap: Range, stripped: (nat, nat) -> nat): seq<Range> {
    if gap.first <= gap.last && stripped(gap.first, gap.last) >= MIN_CHUNK_CHARS then chunks + [gap] else chunks
  }

  /** The chunks for the gaps in front of the first `n` ranges. */
  function Emitted(covered: seq<Range>, stripped: (nat, nat) -> nat, n: nat): seq<Range>
    requires n <= |covered|
  {
    if n == 0 then []
    else
      var before, cursor := Emitted(covered, stripped, n - 1), Cursor(covered, n - 1);
      if cursor < covered[n - 1].first then Emitting(before, Range(cursor, covered[n - 1].first - 1), stripped) else before
  }

  lemma {:induction false} CursorIsPast(covered: seq<Range>, n: nat)
    requires n <= |covered|
    ensures Cursor(covered, n) >= 1 && forall i :: 0 <= i < n ==> covered[i].last < Cursor(covered, n)
    ensures Cursor(covered, n) > 1 ==> exists i :: 0 <= i < n && covered[i].last == Cursor(covered, n) - 1
  {
    if n > 0 {
      CursorIsPast(covered, n - 1);
    }
  }

  lemma CoveredJustBefore(covered: seq<Range>, lines: nat, n: nat)
    requires n <= |covered| && WithinFile(covered, lines)
    ensures Cursor(covered, n) > 1 ==> Covered(covered, Cursor(covered, n) - 1)
  {
    CursorIsPast(covered, n);
    if Cursor(covered, n) > 1 {
      var i :| 0 <= i < n && covered[i].last == Cursor(covered, n) - 1;
      assert covered[i] in covered;
    }
  }

  /** From the cursor up to the next range nothing is covered. */
  lemma FreeBefore(covered: seq<Range>, n: nat, line: nat)
    requires n <= |covered| && Ordered(covered) && Cursor(covered, n) <= line
    requires n < |covered| ==> line < covered[n].first
    ensures !Covered(covered, line)
  {
    CursorIsPast(covered, n);
    forall r | r in covered
      ensures !(r.first <= line <= r.last)
    {
      var i :| 0 <= i < |covered| && covered[i] == r;
      assert i > n ==> covered[n].first <= covered[i].first;
    }
  }

  /** The gap in front of the next range is maximal. */
  lemma GapBefore(covered: seq<Range>, lines: nat, n: nat)
    requires Ordered(covered) && WithinFile(covered, lines) && n < |covered| && Cursor(covered, n) < covered[n].first
    ensures covered[n].first > 1 && MaximalGap(covered, lines, Range(Cursor(covered, n), covered[n].first - 1))
  {
    CursorIsPast(covered, n);
    CoveredJustBefore(covered, lines, n);
    assert covered[n] in covered && Covered(covered, covered[n].first);
    forall line | Cursor(covered, n) <= line <= covered[n].first - 1
      ensures !Covered(covered, line)
    {
      FreeBefore(covered, n, line);
    }
  }

  lemma GapAtEnd(covered: seq<Range>, lines: nat)
    requires Ordered(covered) && WithinFile(covered, lines) && Cursor(covered, |covered|) <= lines
    ensures MaximalGap(covered, lines, Range(Cursor(covered, |covered|), lines))
  {
    CursorIsPast(covered, |covered|);
    CoveredJustBefore(covered, lines, |covered|);
    forall line | Cursor(covered, |covered|) <= line <= lines
      ensures !Covered(covered, line)
    {
      FreeBefore(covered, |covered|, line);
    }
  }

  /** Two maximal gaps that share a line are the same. */
  lemma GapsMeet(ranges: seq<Range>, lines: nat, a: Range, b: Range, line: nat)
    requires MaximalGap(ranges, lines, a) && MaximalGap(ranges, lines, b)
    requires a.first <= line <= a.last && b.first <= line <= b.last
    ensures a == b
  {
    assert a.first < b.first ==> a.first <= b.first - 1 <= a.last;
    assert b.first < a.first ==> b.first <= a.first - 1 <= b.last;
    assert a.last < b.last ==> b.first <= a.last + 1 <= b.last;
    assert b.last < a.last ==> a.first <= b.last + 1 <= a.last;
  }

  // ------------------------------------------------------------ what is emitted

  /** Whether a gap is maximal, starts below `cursor`, and is long enough. */
  ghost predicate LongBelow(covered: seq<Range>, lines: nat, stripped: (nat, nat) -> nat, cursor: nat, gap: Range) {
    MaximalGap(covered, lines, gap) && gap.first < cursor && stripped(gap.first, gap.last) >= 64
  }

  /** No gap starts inside a range, and none but the one before it starts in front of it. */
  lemma OnlyGap(covered: seq<Range>, lines: nat, n: nat, gap: Range)
    requires Ordered(covered) && WithinFile(covered, lines) && n < |covered|
    requires MaximalGap(covered, lines, gap) && Cursor(covered, n) <= gap.first < Cursor(covered, n + 1)
    ensures gap == Range(Cursor(covered, n), covered[n].first - 1)
  {
    var range := covered[n];
    assert range in covered;
    if range.first <= gap.first {
      assert Covered(covered, gap.first);
      assert false;
    } else {
      GapBefore(covered, lines, n);
      GapsMeet(covered, lines, gap, Range(Cursor(covered, n), range.first - 1), gap.first);
    }
  }

  /** Passing one more range brings in the gap in front of it, and no other. */
  lemma OneGapMore(covered: seq<Range>, lines: nat, n: nat, gap: Range)
    requires Ordered(covered) && WithinFile(covered, lines) && n < |covered|
    ensures var next := Range(Cursor(covered, n), covered[n].first - 1);
      (MaximalGap(covered, lines, gap) && gap.first < Cursor(covered, n + 1))
      <==> ((MaximalGap(covered, lines, gap) && gap.first < Cursor(covered, n)) || (gap == next && next.first <= next.last))
  {
    var next := Range(Cursor(covered, n), covered[n].first - 1);
    assert covered[n] in covered;
    if gap == next && next.first <= next.last {
      GapBefore(covered, lines, n);
    } else if MaximalGap(covered, lines, gap) && Cursor(covered, n) <= gap.first < Cursor(covered, n + 1) {
      OnlyGap(covered, lines, n, gap);
    }
  }

  lemma {:induction false} EmittedAreLong(covered: seq<Range>, lines: nat, stripped: (nat, nat) -> nat, n: nat, gap: Range)
    requires Ordered(covered) && WithinFile(covered, lines) && n <= |covered|
    ensures gap in Emitted(covered, stripped, n) <==> LongBelow(covered, lines, stripped, Cursor(covered, n), gap)
  {
    if n > 0 {
      EmittedAreLong(covered, lines, stripped, n - 1, gap);
      OneGapMore(covered, lines, n - 1, gap);
    }
  }

  /** In line order, and all below `cursor`. */
  predicate Rising(chunks: seq<Range>, cursor: nat) {
    && (forall gap :: gap in chunks ==> gap.last < cursor)
    && (forall i, j :: 0 <= i < j < |chunks| ==> chunks[i].last < chunks[j].first)
  }

  lemma RisingMore(chunks: seq<Range>, cursor: nat, gap: Range, next: nat, stripped: (nat, nat) -> nat)
    requires Rising(chunks, cursor) && gap.first == cursor <= next && gap.last < next
    ensures Rising(chunks, next) && Rising(Emitting(chunks, gap, stripped), next)
  {
    forall i | 0 <= i < |chunks|
      ensures chunks[i].last < gap.first
    {
      assert chunks[i] in chunks;
    }
  }

  lemma {:induction false} EmittedRise(covered: seq<Range>, lines: nat, stripped: (nat, nat) -> nat, n: nat)
    requires WithinFile(covered, lines) && n <= |covered|
    ensures Rising(Emitted(covered, stripped, n), Cursor(covered, n))
  {
    if n > 0 {
      EmittedRise(covered, lines, stripped, n - 1);
      assert covered[n - 1] in covered;
      if Cursor(covered, n - 1) < covered[n - 1].first {
        RisingMore(Emitted(covered, stripped, n - 1), Cursor(covered, n - 1),
          Range(Cursor(covered, n - 1), covered[n - 1].first - 1), Cursor(covered, n), stripped);
      }
    }
  }

  /** Exactly the maximal gaps whose stripped text is long enough, in line order. */
  ghost predicate LongGaps(ranges: seq<Range>, lines: nat, stripped: (nat, nat) -> nat, chunks: seq<Range>) {
    && (forall gap :: gap in chunks <==> LongBelow(ranges, lines, stripped, lines + 1, gap))
    && (forall i, j :: 0 <= i < j < |chunks| ==> chunks[i].last < chunks[j].first)
  }

  /** `stripped` gives the length of the stripped text of some lines. */
  method EmitUncovered(lines: nat, emitted: seq<Range>, stripped: (nat, nat) -> nat) returns (chunks: seq<Range>)
    requires WithinFile(emitted, lines)
    ensures LongGaps(emitted, lines, stripped, chunks)
  {
    var covered := Sort(emitted, Precedes);
    chunks := [];
    var cursor, n := 1, 0;
    while n < |covered|
      invariant 0 <= n <= |covered| && cursor == Cursor(covered, n) && chunks == Emitted(covered, stripped, n)
    {
      var range := covered[n];
      ghost var before := chunks;
      if cursor < range.first {
        var gap := Range(cursor, range.first - 1);
        if stripped(gap.first, gap.last) >= MIN_CHUNK_CHARS {
          chunks := chunks + [gap];
        }
      }
      assert chunks == if cursor < range.first then Emitting(before, Range(cursor, range.first - 1), stripped) else before;
      cursor := if cursor < range.last + 1 then range.last + 1 else cursor;
      n := n + 1;
    }
    if cursor <= lines {
      var gap := Range(cursor, lines);
      if stripped(gap.first, gap.last) >= MIN_CHUNK_CHARS {
        chunks := chunks + [gap];
      }
    }
    SortOrders(emitted);
    EmittedAreAll(emitted, covered, lines, stripped, chunks);
  }

  lemma EmittedAreAll(emitted: seq<Range>, covered: seq<Range>, lines: nat, stripped: (nat, nat) -> nat, chunks: seq<Range>)
    requires Ordered(covered) && WithinFile(covered, lines) && forall r :: r in covered <==> r in emitted
    requires chunks == Emitting(Emitted(covered, stripped, |covered|), Range(Cursor(covered, |covered|), lines), stripped)
    ensures LongGaps(emitted, lines, stripped, chunks)
  {
    EmittedRise(covered, lines, stripped, |covered|);
    CursorInFile(covered, lines, |covered|);
    RisingMore(Emitted(covered, stripped, |covered|), Cursor(covered, |covered|),
      Range(Cursor(covered, |covered|), lines), lines + 1, stripped);
    SameGaps(emitted, covered, lines);
    forall gap
      ensures gap in chunks <==> LongBelow(emitted, lines, stripped, lines + 1, gap)
    {
      EmittedAreLong(covered, lines, stripped, |covered|, gap);
      LastGap(covered, lines, gap);
    }
  }

  lemma {:induction false} CursorInFile(covered: seq<Range>, lines: nat, n: nat)
    requires WithinFile(covered, lines) && n <= |covered|
    ensures Cursor(covered, n) <= lines + 1
  {
    if n > 0 {
      CursorInFile(covered, lines, n - 1);
      assert covered[n - 1] in covered;
    }
  }

  lemma LastGap(covered: seq<Range>, lines: nat, gap: Range)
    requires Ordered(covered) && WithinFile(covered, lines)
    ensures var cursor := Cursor(covered, |covered|);
      MaximalGap(covered, lines, gap) && gap.first >= cursor <==> gap == Range(cursor, lines) && cursor <= lines
  {
    var cursor := Cursor(covered, |covered|);
    if cursor <= lines {
      GapAtEnd(covered, lines);
      if MaximalGap(covered, lines, gap) && gap.first >= cursor {
        GapsMeet(covered, lines, gap, Range(cursor, lines), gap.first);
      }
    }
  }

  lemma SameGaps(a: seq<Range>, b: seq<Range>, lines: nat)
    requires forall r :: r in b <==> r in a
    ensures forall gap :: MaximalGap(a, lines, gap) <==> MaximalGap(b, lines, gap)
  {
    assert forall line :: Covered(a, line) <==> Covered(b, line);
  }

  /** Every line is in a range, in an emitted gap, or in a maximal gap that is too short. */
  lemma EveryLineAccounted(emitted: seq<Range>, lines: nat, stripped: (nat, nat) -> nat, chunks: seq<Range>, line: nat)
    requires 1 <= line <= lines
    requires LongGaps(emitted, lines, stripped, chunks)
    ensures Covered(emitted, line)
      || exists gap :: MaximalGap(emitted, lines, gap) && gap.first <= line <= gap.last
           && (gap in chunks <==> stripped(gap.first, gap.last) >= MIN_CHUNK_CHARS)
  {
    if !Covered(emitted, line) {
      var first := DownToGap(emitted, line);
      var last := UpToGap(emitted, lines, line);
      var gap := Range(first, last);
      assert MaximalGap(emitted, lines, gap);
    }
  }

  lemma {:induction false} DownToGap(ranges: seq<Range>, line: nat) returns (first: nat)
    requires line >= 1 && !Covered(ranges, line)
    ensures 1 <= first <= line && (first == 1 || Covered(ranges, first - 1))
    ensures forall l :: first <= l <= line ==> !Covered(ranges, l)
  {
    first := line;
    if line > 1 && !Covered(ranges, line - 1) {
      first := DownToGap(ranges, line - 1);
    }
  }

  lemma {:induction false} UpToGap(ranges: seq<Range>, lines: nat, line: nat) returns (last: nat)
    requires line <= lines && !Covered(ranges, line)
    ensures line <= last <= lines && (last == lines || Covered(ranges, last + 1))
    ensures forall l :: line <= l <= last ==> !Covered(ranges, l)
    decreases lines - line
  {
    last := line;
    if line < lines && !Covered(ranges, line + 1) {
      last := UpToGap(ranges, lines, line + 1);
    }
  }
}
