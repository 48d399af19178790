/** `_chunk_markdown`: a document is cut into sections at its headings; and `_split_doc_comment`. */
module Sections {
  import opened Stores
  import opened Headings

  const MIN_DOC_CHUNK_CHARS: nat := 20

  /** Per line of a document its heading level, if it is a heading. */
  type Doc = seq<Option<nat>>

  /** Lines `first` to `last`, counted from 1, under the headings of `path`, the last one its own. */
  datatype Section = Section(first: nat, last: nat, path: seq<nat>)

  /** The levels of the headings among the first `n` lines. */
  function Levels(doc: Doc, n: nat): seq<nat>
    requires n <= |doc|
  {
    if n == 0 then []
    else if doc[n - 1].Some? then Levels(doc, n - 1) + [doc[n - 1].value]
    else Levels(doc, n - 1)
  }

  lemma {:induction false} LevelsPrefix(doc: Doc, n: nat, m: nat)
    requires n <= m <= |doc|
    ensures Levels(doc, n) <= Levels(doc, m)
    ensures n < m && doc[n].Some? ==> |Levels(doc, n)| < |Levels(doc, m)| && Levels(doc, m)[|Levels(doc, n)|] == doc[n].value
  {
    if n < m {
      LevelsPrefix(doc, n, m - 1);
    }
  }

  /** The open headings after the first `n` lines. */
  function PathAt(doc: Doc, n: nat): seq<nat>
    requires n <= |doc|
  {
    LevelsPrefix(doc, n, |doc|);
    Open(Levels(doc, |doc|), |Levels(doc, n)|)
  }

  /** Where the section open after `n` lines starts. */
  function Start(doc: Doc, n: nat): nat
    requires n <= |doc|
  {
    if n == 0 then 1 else if doc[n - 1].Some? then n else Start(doc, n - 1)
  }

  function Flush(sections: seq<Section>, s: Section, size: (nat, nat) -> nat): seq<Section> {
    if s.first <= s.last && size(s.first, s.last) >= MIN_DOC_CHUNK_CHARS then sections + [s] else sections
  }

  /** The section that ends with line `n`, if one does. */
  function EndingAt(doc: Doc, n: nat): Section
    requires n <= |doc|
  {
    Section(Start(doc, n), n, PathAt(doc, n))
  }

  function Flushed(doc: Doc, size: (nat, nat) -> nat, n: nat): seq<Section>
    requires n <= |doc|
  {
    if n == 0 then []
    else if doc[n - 1].Some? then Flush(Flushed(doc, size, n - 1), EndingAt(doc, n - 1), size)
    else Flushed(doc, size, n - 1)
  }

  /** `size` gives the length of the stripped text of some lines. */
  method ChunkMarkdown(doc: Doc, size: (nat, nat) -> nat) returns (sections: seq<Section>)
    ensures sections == Flush(Flushed(doc, size, |doc|), EndingAt(doc, |doc|), size)
  {
    var levels := Levels(doc, |doc|);
    sections := [];
    var path: seq<nat> := [];
    var first, buffered, headings := 1, 0, 0;
    for i := 0 to |doc|
      invariant sections == Flushed(doc, size, i) && first == Start(doc, i) && path == PathAt(doc, i)
      invariant buffered == i + 1 - first && headings == |Levels(doc, i)|
    {
      if doc[i].Some? {
        var last := if i > 0 then i else 1;
        if buffered > 0 && size(first, last) >= MIN_DOC_CHUNK_CHARS {
          sections := sections + [Section(first, last, path)];
        }
        LevelsPrefix(doc, i, |doc|);
        CutOpen(levels, headings, levels[headings]);
        ChainIsPath(levels, headings);
        path := Below(levels, path, doc[i].value) + [headings];
        first, buffered, headings := i + 1, 1, headings + 1;
      } else {
        buffered := buffered + 1;
      }
    }
    if buffered > 0 && size(first, |doc|) >= MIN_DOC_CHUNK_CHARS {
      sections := sections + [Section(first, |doc|, path)];
    }
  }

  // ------------------------------------------------------------ what the sections are

  predicate HeadingAt(doc: Doc, line: nat) {
    1 <= line <= |doc| && doc[line - 1].Some?
  }

  /** From the first line or a heading up to the line before the next heading or the last line. */
  ghost predicate IsBlock(doc: Doc, first: nat, last: nat) {
    && 1 <= first <= last <= |doc|
    && (first == 1 || HeadingAt(doc, first))
    && (last == |doc| || HeadingAt(doc, last + 1))
    && (forall line :: first < line <= last ==> !HeadingAt(doc, line))
  }

  lemma {:induction false} StartIsLastHeading(doc: Doc, n: nat)
    requires n <= |doc|
    ensures Start(doc, n) >= 1 && (n > 0 ==> Start(doc, n) <= n)
    ensures Start(doc, n) == 1 || HeadingAt(doc, Start(doc, n))
    ensures forall line :: Start(doc, n) < line <= n ==> !HeadingAt(doc, line)
  {
    if n > 0 && doc[n - 1].None? {
      StartIsLastHeading(doc, n - 1);
    }
  }

  lemma BlockStarts(doc: Doc, first: nat, last: nat)
    requires IsBlock(doc, first, last)
    ensures Start(doc, last) == first
  {
    StartIsLastHeading(doc, last);
    assert first == 1 || HeadingAt(doc, first);
  }

  lemma {:induction false} PathStays(doc: Doc, first: nat, last: nat)
    requires 1 <= first <= last <= |doc| && forall line :: first < line <= last ==> !HeadingAt(doc, line)
    ensures PathAt(doc, last) == PathAt(doc, first)
  {
    if first < last {
      PathStays(doc, first, last - 1);
      assert !HeadingAt(doc, last);
    }
  }

  ghost predicate IsSection(doc: Doc, size: (nat, nat) -> nat, s: Section) {
    && IsBlock(doc, s.first, s.last)
    && size(s.first, s.last) >= 20
    && s.path == PathAt(doc, s.first)
  }

  lemma EndingIsSection(doc: Doc, size: (nat, nat) -> nat, n: nat, s: Section)
    requires n <= |doc| && (n == |doc| || HeadingAt(doc, n + 1))
    ensures s == EndingAt(doc, n) && s.first <= s.last && size(s.first, s.last) >= MIN_DOC_CHUNK_CHARS
      <==> IsSection(doc, size, s) && s.last == n
  {
    StartIsLastHeading(doc, n);
    if n > 0 {
      PathStays(doc, Start(doc, n), n);
    }
    if IsSection(doc, size, s) && s.last == n {
      BlockStarts(doc, s.first, s.last);
    }
  }

  lemma {:induction false} FlushedAreSections(doc: Doc, size: (nat, nat) -> nat, n: nat, s: Section)
    requires n <= |doc|
    ensures s in Flushed(doc, size, n) <==> IsSection(doc, size, s) && s.last < n && HeadingAt(doc, s.last + 1)
  {
    if n > 0 {
      FlushedAreSections(doc, size, n - 1, s);
      if doc[n - 1].Some? {
        EndingIsSection(doc, size, n - 1, s);
      }
    }
  }

  /** Exactly the blocks with enough text, each under the chain of headings open at its start. */
  lemma SectionsAreBlocks(doc: Doc, size: (nat, nat) -> nat, s: Section)
    ensures s in Flush(Flushed(doc, size, |doc|), EndingAt(doc, |doc|), size) <==> IsSection(doc, size, s)
  {
    FlushedAreSections(doc, size, |doc|, s);
    EndingIsSection(doc, size, |doc|, s);
  }

  predicate Rising(sections: seq<Section>, end: nat) {
    && (forall i :: 0 <= i < |sections| ==> sections[i].last < end)
    && (forall i, j :: 0 <= i < j < |sections| ==> sections[i].last < sections[j].first)
  }

  lemma FlushRises(sections: seq<Section>, s: Section, size: (nat, nat) -> nat, end: nat)
    requires Rising(sections, s.first) && s.first <= end && s.last < end
    ensures Rising(Flush(sections, s, size), end)
  {
  }

  /** Sections come in line order and do not overlap. */
  lemma {:induction false} SectionsRise(doc: Doc, size: (nat, nat) -> nat, n: nat)
    requires n <= |doc|
    ensures Rising(Flushed(doc, size, n), Start(doc, n))
  {
    StartIsLastHeading(doc, n);
    if n > 0 {
      SectionsRise(doc, size, n - 1);
      StartIsLastHeading(doc, n - 1);
      if doc[n - 1].Some? {
        FlushRises(Flushed(doc, size, n - 1), EndingAt(doc, n - 1), size, n);
      }
    }
  }

  lemma AllSectionsRise(doc: Doc, size: (nat, nat) -> nat)
    ensures Rising(Flush(Flushed(doc, size, |doc|), EndingAt(doc, |doc|), size), |doc| + 1)
  {
    SectionsRise(doc, size, |doc|);
    StartIsLastHeading(doc, |doc|);
    FlushRises(Flushed(doc, size, |doc|), EndingAt(doc, |doc|), size, |doc| + 1);
  }

  /** Every line lies in one block. */
  lemma EveryLineInOneBlock(doc: Doc, line: nat) returns (first: nat, last: nat)
    requires 1 <= line <= |doc|
    ensures IsBlock(doc, first, last) && first <= line <= last
    ensures forall a: nat, b: nat :: IsBlock(doc, a, b) && a <= line <= b ==> a == first && b == last
  {
    first := Start(doc, line);
    StartIsLastHeading(doc, line);
    last := BlockEnd(doc, line);
    forall a: nat, b: nat | IsBlock(doc, a, b) && a <= line <= b
      ensures a == first && b == last
    {
      assert first == 1 || HeadingAt(doc, first);
      assert b == |doc| || HeadingAt(doc, b + 1);
    }
  }

  lemma {:induction false} BlockEnd(doc: Doc, line: nat) returns (last: nat)
    requires 1 <= line <= |doc|
    ensures line <= last <= |doc| && (last == |doc| || HeadingAt(doc, last + 1))
    ensures forall l :: line < l <= last ==> !HeadingAt(doc, l)
    decreases |doc| - line
  {
    last := line;
    if line < |doc| && !HeadingAt(doc, line + 1) {
      last := BlockEnd(doc, line + 1);
    }
  }

  /** The path of a section that starts with a heading is that heading's chain of ancestors. */
  lemma SectionPath(doc: Doc, line: nat)
    requires HeadingAt(doc, line)
    ensures var levels, heading := Levels(doc, |doc|), |Levels(doc, line - 1)|;
      heading < |levels| && levels[heading] == doc[line - 1].value && PathAt(doc, line) == Chain(levels, heading)
  {
    LevelsPrefix(doc, line - 1, |doc|);
  }

  // ------------------------------------------------------------ doc comments

  /** Line `k` is the first blank one after the first line, and not the last. */
  predicate SplitAt(lines: seq<string>, isBlank: string -> bool, k: nat) {
    1 <= k < |lines| - 1 && isBlank(lines[k]) && forall j :: 1 <= j < k ==> !isBlank(lines[j])
  }

  /** Head and remainder are the comment cut in two, the remainder starting on the line after the
      head; without a place to cut the head is all of it. */
  method SplitDocComment(lines: seq<string>, start: int, isBlank: string -> bool)
    returns (headEnd: int, remainder: seq<string>, remainderStart: int)
    ensures forall k: nat :: SplitAt(lines, isBlank, k) ==>
      headEnd == start + k - 1 && lines[..k] + remainder == lines && remainderStart == headEnd + 1
    ensures (forall k :: 1 <= k < |lines| - 1 ==> !isBlank(lines[k])) ==>
      headEnd == start + |lines| - 1 && remainder == [] && remainderStart == start
  {
    var i := 1;
    while i < |lines| && !isBlank(lines[i])
      invariant 1 <= i && (i <= |lines| || i == 1)
      invariant forall k :: 1 <= k < i && k < |lines| ==> !isBlank(lines[k])
    {
      i := i + 1;
    }
    if i >= |lines| - 1 {
      return start + |lines| - 1, [], start;
    }
    assert lines[..i] + lines[i..] == lines;
    return start + i - 1, lines[i..], start + i;
  }
}
