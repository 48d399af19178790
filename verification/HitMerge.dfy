/** Shaping of search responses: adjacent hits become one, then contents are fitted to a budget. */
module HitMerge {
  import opened Stores
  import opened Lists

  const MAX_GAP_LINES := 3
  const EXCERPT_CHAR_CAP := 700

  datatype Lines = Lines(first: int, last: int)

  datatype Hit = Hit(
    file: string,
    line: Option<int>,
    end: Option<int>,
    score: real,
    anchor: string,
    content: Option<string>,
    merged: seq<Lines>)
  {
    predicate Located() {
      file != "" && line.Some?
    }

    function First(): int {
      if line.Some? then line.value else 0
    }

    function Last(): int {
      if end.Some? then end.value else First()
    }

    function Text(): string {
      if content.Some? then content.value else ""
    }

    /** The hit spans the lines it names, none of them backwards. */
    predicate WellFormed() {
      First() <= Last()
    }

    predicate Covers(other: Hit) {
      First() <= other.First() && other.Last() <= Last()
    }
  }

  predicate ByLine(a: Hit, b: Hit) {
    a.First() <= b.First()
  }

  predicate ByScore(a: Hit, b: Hit) {
    a.score >= b.score
  }

  predicate Contains(text: string, part: string) {
    exists i :: 0 <= i <= |text| && part <= text[i..]
  }

  // ------------------------------------------------------------ one file

  predicate Near(current: Hit, next: Hit) {
    next.First() <= current.Last() + MAX_GAP_LINES
  }

  function Absorb(current: Hit, next: Hit, strip: string -> string): Hit {
    var longer := next.Last() > current.Last();
    current.(
      end := if longer then Some(next.Last()) else Some(current.Last()),
      content := if longer && next.Text() != "" && !Contains(current.Text(), next.Text())
        then Some(strip(current.Text() + "\n…\n" + next.Text())) else current.content,
      score := if current.score >= next.score then current.score else next.score)
  }

  function Close(current: Hit, spans: seq<Lines>): Hit {
    if |spans| > 1 then current.(merged := spans) else current
  }

  function LinesOf(h: Hit): Lines {
    Lines(h.First(), h.Last())
  }

  /** The merged hits of one file, `current` being open and `rest` in line order. */
  function MergeFrom(current: Hit, spans: seq<Lines>, rest: seq<Hit>, strip: string -> string): seq<Hit>
    decreases rest
  {
    if rest == [] then [Close(current, spans)]
    else if Near(current, rest[0]) then
      MergeFrom(Absorb(current, rest[0], strip), spans + [LinesOf(rest[0])], rest[1..], strip)
    else
      [Close(current, spans)] + MergeFrom(rest[0], [LinesOf(rest[0])], rest[1..], strip)
  }

  function MergeGroup(group: seq<Hit>, strip: string -> string): seq<Hit> {
    var sorted := Sort(group, ByLine);
    if sorted == [] then [] else MergeFrom(sorted[0], [LinesOf(sorted[0])], sorted[1..], strip)
  }

  method MergeFile(group: seq<Hit>, strip: string -> string) returns (merged: seq<Hit>)
    requires group != []
    ensures merged == MergeGroup(group, strip)
  {
    var sorted := Sort(group, ByLine);
    SortKeeps(group, ByLine);
    SameMembers(sorted, group);
    merged := [];
    var current, spans := sorted[0], [LinesOf(sorted[0])];
    var i := 1;
    while i < |sorted|
      invariant 1 <= i <= |sorted|
      invariant merged + MergeFrom(current, spans, sorted[i..], strip) == MergeGroup(group, strip)
    {
      var next := sorted[i];
      assert sorted[i..][0] == next && sorted[i..][1..] == sorted[i + 1..];
      if Near(current, next) {
        current := Absorb(current, next, strip);
        spans := spans + [LinesOf(next)];
      } else {
        merged := merged + [Close(current, spans)];
        current, spans := next, [LinesOf(next)];
      }
      i := i + 1;
    }
    merged := merged + [Close(current, spans)];
  }

  // ------------------------------------------------------------ what a merge of one file means

  /** More than the allowed gap of three lines lies between each hit and all later ones. */
  predicate Separated(hits: seq<Hit>) {
    forall i, j :: 0 <= i < j < |hits| ==> hits[i].Last() + 3 < hits[j].First()
  }

  /** Every hit starts at `low` or later. */
  predicate StartFrom(hits: seq<Hit>, low: int) {
    forall h :: h in hits ==> low <= h.First()
  }

  lemma {:induction false} MergedAreSeparated(current: Hit, spans: seq<Lines>, rest: seq<Hit>, strip: string -> string)
    requires Sorted(rest, ByLine) && StartFrom(rest, current.First())
    ensures var r := MergeFrom(current, spans, rest, strip);
      Separated(r) && StartFrom(r, current.First()) && r != [] && r[0].First() == current.First()
    decreases rest
  {
    if rest != [] {
      var next := rest[0];
      assert StartFrom(rest[1..], next.First());
      if Near(current, next) {
        MergedAreSeparated(Absorb(current, next, strip), spans + [LinesOf(next)], rest[1..], strip);
      } else {
        MergedAreSeparated(next, [LinesOf(next)], rest[1..], strip);
        assert next in rest;
      }
    }
  }

  ghost predicate CoveredBy(h: Hit, merged: seq<Hit>) {
    exists r :: r in merged && r.Covers(h) && r.score >= h.score
  }

  lemma CoveredByMore(h: Hit, first: Hit, rest: seq<Hit>)
    requires CoveredBy(h, rest) || (first.Covers(h) && first.score >= h.score)
    ensures CoveredBy(h, [first] + rest)
  {
    if CoveredBy(h, rest) {
      var r :| r in rest && r.Covers(h) && r.score >= h.score;
      assert r in [first] + rest;
    } else {
      assert first in [first] + rest;
    }
  }

  /** Whatever the open hit covers, and every hit to come, ends up covered. */
  lemma {:induction false} MergedCover(current: Hit, spans: seq<Lines>, rest: seq<Hit>, strip: string -> string, h: Hit)
    requires Sorted(rest, ByLine) && StartFrom(rest, current.First())
    requires (current.Covers(h) && current.score >= h.score) || h in rest
    ensures CoveredBy(h, MergeFrom(current, spans, rest, strip))
    decreases rest
  {
    if rest == [] {
      assert Close(current, spans) in MergeFrom(current, spans, rest, strip);
    } else {
      var next := rest[0];
      assert next in rest && StartFrom(rest[1..], next.First());
      if Near(current, next) {
        MergedCover(Absorb(current, next, strip), spans + [LinesOf(next)], rest[1..], strip, h);
      } else {
        if !(current.Covers(h) && current.score >= h.score) {
          MergedCover(next, [LinesOf(next)], rest[1..], strip, h);
        }
        CoveredByMore(h, Close(current, spans), MergeFrom(next, [LinesOf(next)], rest[1..], strip));
      }
    }
  }

  /** `line` is in a hit of `from`, or at most two lines below the end of one. */
  ghost predicate Bridged(from: seq<Hit>, line: int) {
    exists h :: h in from && h.First() <= line < h.Last() + 3
  }

  /** A merged hit adds nothing: its first line and its score are those of hits of `from`, as is
      its last line, and every line of it lies in one of them or in a gap that may be bridged. */
  ghost predicate Justified(r: Hit, from: seq<Hit>) {
    && (exists h :: h in from && h.First() == r.First() && h.anchor == r.anchor)
    && (exists h :: h in from && h.score == r.score && r.Covers(h))
    && (exists h :: h in from && h.Last() == r.Last())
    && (forall line :: r.First() <= line <= r.Last() ==> Bridged(from, line))
  }

  lemma AbsorbedIsJustified(current: Hit, next: Hit, from: seq<Hit>, strip: string -> string)
    requires Justified(current, from) && next in from && next.WellFormed() && current.First() <= next.First()
    requires Near(current, next) && forall h :: h in from ==> h.WellFormed()
    ensures Justified(Absorb(current, next, strip), from)
  {
    var both := Absorb(current, next, strip);
    var last :| last in from && last.Last() == current.Last();
    assert both.First() == current.First() && both.anchor == current.anchor;
    forall line | both.First() <= line <= both.Last()
      ensures Bridged(from, line)
    {
      if line > current.Last() && next.First() > line {
        assert current.Last() < line < current.Last() + MAX_GAP_LINES;
        LastBridges(current, from, last, line);
      } else if line > current.Last() {
        assert next.First() <= line < next.Last() + MAX_GAP_LINES;
      }
    }
  }

  lemma LastBridges(current: Hit, from: seq<Hit>, last: Hit, line: int)
    requires last in from && last.Last() == current.Last() && current.Last() < line < current.Last() + MAX_GAP_LINES
    requires Justified(current, from) && forall h :: h in from ==> h.WellFormed()
    ensures Bridged(from, line)
  {
    assert last.First() <= line < last.Last() + MAX_GAP_LINES;
  }

  lemma {:induction false} MergedAreJustified(current: Hit, spans: seq<Lines>, rest: seq<Hit>, from: seq<Hit>, strip: string -> string, r: Hit)
    requires Sorted(rest, ByLine) && StartFrom(rest, current.First())
    requires (forall h :: h in rest ==> h in from) && (forall h :: h in from ==> h.WellFormed())
    requires Justified(current, from) && r in MergeFrom(current, spans, rest, strip)
    ensures Justified(r, from)
    decreases rest
  {
    if rest != [] {
      var next := rest[0];
      assert next in rest && StartFrom(rest[1..], next.First());
      if Near(current, next) {
        AbsorbedIsJustified(current, next, from, strip);
        MergedAreJustified(Absorb(current, next, strip), spans + [LinesOf(next)], rest[1..], from, strip, r);
      } else if r != Close(current, spans) {
        OwnIsJustified(next, from);
        MergedAreJustified(next, [LinesOf(next)], rest[1..], from, strip, r);
      }
    }
  }

  lemma OwnIsJustified(h: Hit, from: seq<Hit>)
    requires h in from && h.WellFormed()
    ensures Justified(h, from)
  {
  }

  lemma SortedGroup(group: seq<Hit>)
    ensures var sorted := Sort(group, ByLine);
      && Sorted(sorted, ByLine) && |sorted| == |group| && (forall h :: h in sorted <==> h in group)
      && (sorted != [] ==> Sorted(sorted[1..], ByLine) && StartFrom(sorted[1..], sorted[0].First()))
  {
    SortSorts(group, ByLine);
    SortKeeps(group, ByLine);
    SameMembers(Sort(group, ByLine), group);
  }

  lemma GroupCovers(group: seq<Hit>, strip: string -> string, h: Hit)
    requires h in group
    ensures CoveredBy(h, MergeGroup(group, strip))
  {
    SortedGroup(group);
    var sorted := Sort(group, ByLine);
    assert h in sorted && (h == sorted[0] || h in sorted[1..]);
    MergedCover(sorted[0], [LinesOf(sorted[0])], sorted[1..], strip, h);
  }

  /** The results span nothing but hits of the file and gaps small enough to bridge. */
  lemma GroupIsJustified(group: seq<Hit>, strip: string -> string, r: Hit)
    requires (forall h :: h in group ==> h.WellFormed()) && r in MergeGroup(group, strip)
    ensures Justified(r, group)
  {
    SortedGroup(group);
    var sorted := Sort(group, ByLine);
    assert sorted[0] in sorted;
    OwnIsJustified(sorted[0], group);
    MergedAreJustified(sorted[0], [LinesOf(sorted[0])], sorted[1..], group, strip, r);
  }

  lemma GroupIsSeparated(group: seq<Hit>, strip: string -> string)
    ensures Separated(MergeGroup(group, strip))
  {
    SortedGroup(group);
    var sorted := Sort(group, ByLine);
    if sorted != [] {
      MergedAreSeparated(sorted[0], [LinesOf(sorted[0])], sorted[1..], strip);
    }
  }

  /** Merging the hits of a file: the results lie apart, cover every hit, and each carries the best
      score among the hits inside it. */
  lemma GroupMerges(group: seq<Hit>, strip: string -> string)
    requires forall h :: h in group ==> h.WellFormed()
    ensures var merged := MergeGroup(group, strip);
      && Separated(merged)
      && (forall h :: h in group ==> CoveredBy(h, merged))
      && (forall r, h :: r in merged && h in group && r.Covers(h) ==> h.score <= r.score)
  {
    var merged := MergeGroup(group, strip);
    GroupIsSeparated(group, strip);
    forall h | h in group
      ensures CoveredBy(h, merged)
    {
      GroupCovers(group, strip, h);
    }
    forall r, h | r in merged && h in group && r.Covers(h)
      ensures h.score <= r.score
    {
      BestScore(merged, r, h);
    }
  }

  lemma BestScore(merged: seq<Hit>, r: Hit, h: Hit)
    requires Separated(merged) && r in merged && r.Covers(h) && h.WellFormed() && CoveredBy(h, merged)
    ensures h.score <= r.score
  {
    var best :| best in merged && best.Covers(h) && best.score >= h.score;
    OneCovers(merged, r, best, h);
  }

  lemma OneCovers(merged: seq<Hit>, a: Hit, b: Hit, h: Hit)
    requires Separated(merged) && a in merged && b in merged
    requires a.Covers(h) && b.Covers(h) && h.WellFormed()
    ensures a == b
  {
    var i :| 0 <= i < |merged| && merged[i] == a;
    var j :| 0 <= j < |merged| && merged[j] == b;
    assert i < j ==> a.Last() + MAX_GAP_LINES < b.First();
    assert j < i ==> b.Last() + MAX_GAP_LINES < a.First();
  }

  // ------------------------------------------------------------ what becomes of the texts

  predicate Trimmed(s: string, i: nat, j: nat, blank: char -> bool) {
    && i <= j <= |s|
    && (forall k :: 0 <= k < i ==> blank(s[k]))
    && (forall k :: j <= k < |s| ==> blank(s[k]))
  }

  /** `strip` takes nothing but blanks off the ends. */
  ghost predicate Trims(strip: string -> string, blank: char -> bool) {
    forall s :: exists i: nat, j: nat :: Trimmed(s, i, j, blank) && strip(s) == s[i..j]
  }

  /** Not empty, and no blank at either end. */
  predicate Tight(text: string, blank: char -> bool) {
    text != "" && !blank(text[0]) && !blank(text[|text| - 1])
  }

  lemma TightSurvives(s: string, part: string, strip: string -> string, blank: char -> bool)
    requires Trims(strip, blank) && Tight(part, blank) && Contains(s, part)
    ensures Contains(strip(s), part)
  {
    var p :| 0 <= p <= |s| && part <= s[p..];
    var i: nat, j: nat :| Trimmed(s, i, j, blank) && strip(s) == s[i..j];
    assert s[p] == part[0] && s[p + |part| - 1] == part[|part| - 1];
    assert i <= p && p + |part| <= j;
    assert s[i..j][p - i..] == s[p..j];
    assert part <= s[i..j][p - i..];
  }

  lemma ContainsPart(s: string, text: string, part: string)
    requires Contains(s, text) && Contains(text, part)
    ensures Contains(s, part)
  {
    var p :| 0 <= p <= |s| && text <= s[p..];
    var q :| 0 <= q <= |text| && part <= text[q..];
    assert text[q..] <= s[p + q..];
    assert part <= s[p + q..];
  }

  lemma AbsorbKeepsText(current: Hit, next: Hit, part: string, strip: string -> string, blank: char -> bool)
    requires Trims(strip, blank) && Tight(part, blank)
    requires Contains(current.Text(), part) || (Contains(next.Text(), part) && next.Last() > current.Last())
    ensures Contains(Absorb(current, next, strip).Text(), part)
  {
    var joined := current.Text() + "\n…\n" + next.Text();
    if Contains(current.Text(), part) {
      assert current.Text() <= joined[0..];
      ContainsPart(joined, current.Text(), part);
    } else {
      assert next.Text() != "";
      assert next.Text() <= joined[|joined| - |next.Text()|..];
      ContainsPart(joined, next.Text(), part);
      if Contains(current.Text(), next.Text()) {
        ContainsPart(current.Text(), next.Text(), part);
      }
    }
    TightSurvives(joined, part, strip, blank);
  }

  /** This part of the hit's text is in the merged hit that covers it, or another hit has its lines. */
  ghost predicate TextKept(h: Hit, part: string, merged: seq<Hit>, from: seq<Hit>) {
    || (exists r :: r in merged && r.Covers(h) && Contains(r.Text(), part))
    || (exists g :: g in from && g != h && g.Covers(h))
  }

  lemma TextKeptByMore(h: Hit, part: string, first: Hit, rest: seq<Hit>, from: seq<Hit>)
    requires TextKept(h, part, rest, from) || (first.Covers(h) && Contains(first.Text(), part))
    ensures TextKept(h, part, [first] + rest, from)
  {
    if r :| r in rest && r.Covers(h) && Contains(r.Text(), part) {
      assert r in [first] + rest;
    } else {
      assert first in [first] + rest;
    }
  }

  /** `reach` is the hit that took `current` as far as it goes. */
  lemma {:induction false} MergedKeepsText(current: Hit, spans: seq<Lines>, rest: seq<Hit>, from: seq<Hit>, reach: Hit,
                                           strip: string -> string, blank: char -> bool, h: Hit, part: string)
    requires Trims(strip, blank) && Tight(part, blank) && Contains(h.Text(), part)
    requires Sorted(rest, ByLine) && StartFrom(rest, current.First()) && forall x :: x in rest ==> x in from
    requires reach in from && reach.Last() == current.Last() && StartFrom(rest, reach.First())
    requires (h in rest && h != reach) || (current.Covers(h) && Contains(current.Text(), part))
    ensures TextKept(h, part, MergeFrom(current, spans, rest, strip), from)
    decreases rest
  {
    if rest == [] {
      assert Close(current, spans) in MergeFrom(current, spans, rest, strip);
    } else {
      var next := rest[0];
      var held := current.Covers(h) && Contains(current.Text(), part);
      assert next in rest && StartFrom(rest[1..], next.First());
      if Near(current, next) {
        if !held && next == h && next.Last() <= current.Last() {
          assert reach.Covers(h);
        } else {
          if held || next == h {
            AbsorbKeepsText(current, next, part, strip, blank);
          }
          var farther := if next.Last() > current.Last() then next else reach;
          MergedKeepsText(Absorb(current, next, strip), spans + [LinesOf(next)], rest[1..], from, farther, strip, blank, h, part);
        }
      } else {
        if !held {
          MergedKeepsText(next, [LinesOf(next)], rest[1..], from, next, strip, blank, h, part);
        }
        TextKeptByMore(h, part, Close(current, spans), MergeFrom(next, [LinesOf(next)], rest[1..], strip), from);
      }
    }
  }

  /** No text is lost but blanks at its ends, unless another hit covers the lines: every part of it
      that has no blank at its own ends is in the merged hit. */
  lemma GroupKeepsTexts(group: seq<Hit>, strip: string -> string, blank: char -> bool, h: Hit, part: string)
    requires Trims(strip, blank) && h in group && Tight(part, blank) && Contains(h.Text(), part)
    ensures TextKept(h, part, MergeGroup(group, strip), group)
  {
    SortedGroup(group);
    var sorted := Sort(group, ByLine);
    assert h in sorted && (h == sorted[0] || h in sorted[1..]);
    assert sorted[0] in sorted;
    MergedKeepsText(sorted[0], [LinesOf(sorted[0])], sorted[1..], group, sorted[0], strip, blank, h, part);
  }

  // ------------------------------------------------------------ in which order they stand

  /** Cutting the hits in two: the first part is merged as it would be alone, up to its last result, which
      the second part goes on from. */
  lemma {:induction false} MergeSplit(current: Hit, spans: seq<Lines>, a: seq<Hit>, b: seq<Hit>, strip: string -> string)
      returns (done: seq<Hit>, last: Hit, lastSpans: seq<Lines>)
    requires Sorted(a + b, ByLine) && StartFrom(a + b, current.First())
    ensures MergeFrom(current, spans, a, strip) == done + [Close(last, lastSpans)]
    ensures MergeFrom(current, spans, a + b, strip) == done + MergeFrom(last, lastSpans, b, strip)
    ensures StartFrom(b, last.First())
    decreases a
  {
    if a == [] {
      done, last, lastSpans := [], current, spans;
      assert a + b == b;
    } else {
      var next := a[0];
      assert (a + b)[0] == next && (a + b)[1..] == a[1..] + b;
      assert next in a + b && StartFrom(a[1..] + b, next.First());
      if Near(current, next) {
        done, last, lastSpans := MergeSplit(Absorb(current, next, strip), spans + [LinesOf(next)], a[1..], b, strip);
      } else {
        done, last, lastSpans := MergeSplit(next, [LinesOf(next)], a[1..], b, strip);
        done := [Close(current, spans)] + done;
      }
    }
  }

  /** What the open hit holds is in the result that comes of it. */
  lemma {:induction false} OpenTextStays(current: Hit, spans: seq<Lines>, rest: seq<Hit>, strip: string -> string, blank: char -> bool, part: string)
      returns (r: Hit)
    requires Trims(strip, blank) && Tight(part, blank) && Contains(current.Text(), part)
    ensures r in MergeFrom(current, spans, rest, strip)
    ensures Contains(r.Text(), part) && r.First() == current.First() && r.Last() >= current.Last()
    decreases rest
  {
    if rest != [] && Near(current, rest[0]) {
      AbsorbKeepsText(current, rest[0], part, strip, blank);
      r := OpenTextStays(Absorb(current, rest[0], strip), spans + [LinesOf(rest[0])], rest[1..], strip, blank, part);
    } else {
      r := Close(current, spans);
    }
  }

  lemma Around(text: string, part: string) returns (before: string, after: string)
    requires Contains(text, part)
    ensures text == before + part + after
  {
    var p :| 0 <= p <= |text| && part <= text[p..];
    before, after := text[..p], text[p + |part|..];
    assert text[p..] == part + after;
  }

  lemma Within(before: string, part: string, after: string)
    ensures Contains(before + part + after, part)
  {
    assert (before + part + after)[|before|..] == part + after;
  }

  /** Two texts around the separator. */
  lemma PairInJoined(x: string, a: string, y: string, b: string) returns (mid: string)
    requires Contains(x, a) && Contains(y, b)
    ensures Contains(x + "\n…\n" + y, a + mid + b) && Contains(mid, "\n…\n")
  {
    var before, tail := Around(x, a);
    var head, after := Around(y, b);
    mid := tail + "\n…\n" + head;
    Within(tail, "\n…\n", head);
    Within(before, a + mid + b, after);
    Regroup(before, a, tail, "\n…\n", head, b, after);
  }

  lemma Regroup(s: string, t: string, u: string, v: string, w: string, x: string, y: string)
    ensures (s + t + u) + v + (w + x + y) == s + (t + (u + v + w) + x) + y
  {
  }

  lemma EmptyIsPart(text: string)
    ensures Contains(text, "")
  {
    assert "" <= text[0..];
  }

  lemma TightPair(a: string, mid: string, b: string, blank: char -> bool)
    requires Tight(a, blank) && Tight(b, blank)
    ensures Tight(a + mid + b, blank)
  {
  }

  /** The hit joins the open one and brings a text that is not in it yet. */
  predicate Brings(current: Hit, next: Hit) {
    next.First() <= current.Last() + MAX_GAP_LINES && current.Last() < next.Last() && !Contains(current.Text(), next.Text())
  }

  lemma AbsorbOrders(current: Hit, next: Hit, strip: string -> string, blank: char -> bool, earlier: string, later: string) returns (mid: string)
    requires Trims(strip, blank) && Tight(earlier, blank) && Tight(later, blank) && Brings(current, next)
    requires Contains(current.Text(), earlier) && Contains(next.Text(), later)
    ensures Contains(Absorb(current, next, strip).Text(), earlier + mid + later) && Contains(mid, "\n…\n")
    ensures Tight(earlier + mid + later, blank)
  {
    mid := PairInJoined(current.Text(), earlier, next.Text(), later);
    EmptyIsPart(current.Text());
    TightPair(earlier, mid, later, blank);
    TightSurvives(current.Text() + "\n…\n" + next.Text(), earlier + mid + later, strip, blank);
  }

  /** Texts stand in line order, with the separator between them: what the last result of the first `k`
      hits holds stands in front of what the next hit brings to it. */
  lemma TextsStandInOrder(group: seq<Hit>, strip: string -> string, blank: char -> bool, k: nat, last: Hit, earlier: string, later: string)
      returns (r: Hit, mid: string)
    requires Trims(strip, blank) && Tight(earlier, blank) && Tight(later, blank)
    requires var sorted := Sort(group, ByLine);
      && 0 < k < |sorted|
      && (var before := MergeGroup(sorted[..k], strip); before != [] && last == before[|before| - 1])
      && Brings(last, sorted[k])
      && Contains(last.Text(), earlier) && Contains(sorted[k].Text(), later)
    ensures r in MergeGroup(group, strip) && r.First() == last.First() && r.Covers(Sort(group, ByLine)[k])
    ensures Contains(r.Text(), earlier + mid + later) && Contains(mid, "\n…\n")
  {
    SortedGroup(group);
    var sorted := Sort(group, ByLine);
    var next, rest := sorted[k], sorted[k + 1..];
    var current, spans, done := OpenAt(group, strip, k);
    mid := AbsorbOrders(current, next, strip, blank, earlier, later);
    r := OpenTextStays(Absorb(current, next, strip), spans + [LinesOf(next)], rest, strip, blank, earlier + mid + later);
  }

  /** So of two hits in one result the one further up stands in front, when no other hit before the second
      has its lines. */
  lemma HitsStandInLineOrder(group: seq<Hit>, strip: string -> string, blank: char -> bool, i: nat, k: nat, last: Hit, earlier: string, later: string)
      returns (r: Hit, mid: string)
    requires Trims(strip, blank) && Tight(earlier, blank) && Tight(later, blank)
    requires var sorted := Sort(group, ByLine);
      && i < k < |sorted| && sorted[i].WellFormed()
      && (var before := MergeGroup(sorted[..k], strip); before != [] && last == before[|before| - 1])
      && last.Covers(sorted[i]) && (forall g :: g in sorted[..k] && g != sorted[i] ==> !g.Covers(sorted[i]))
      && Brings(last, sorted[k])
      && Contains(sorted[i].Text(), earlier) && Contains(sorted[k].Text(), later)
    ensures var sorted := Sort(group, ByLine);
      r in MergeGroup(group, strip) && r.Covers(sorted[i]) && r.Covers(sorted[k])
    ensures Contains(r.Text(), earlier + mid + later) && Contains(mid, "\n…\n")
  {
    var sorted := Sort(group, ByLine);
    var prefix, h := sorted[..k], sorted[i];
    assert prefix[i] == h;
    GroupKeepsTexts(prefix, strip, blank, h, earlier);
    GroupIsSeparated(prefix, strip);
    var held :| held in MergeGroup(prefix, strip) && held.Covers(h) && Contains(held.Text(), earlier);
    OneCovers(MergeGroup(prefix, strip), held, last, h);
    r, mid := TextsStandInOrder(group, strip, blank, k, last, earlier, later);
  }

  /** The hit that is open before the `k`-th in line order. */
  lemma OpenAt(group: seq<Hit>, strip: string -> string, k: nat) returns (current: Hit, spans: seq<Lines>, done: seq<Hit>)
    requires 0 < k < |Sort(group, ByLine)|
    ensures var sorted := Sort(group, ByLine);
      && MergeGroup(sorted[..k], strip) == done + [Close(current, spans)]
      && MergeGroup(group, strip) == done + MergeFrom(current, spans, [sorted[k]] + sorted[k + 1..], strip)
      && current.First() <= sorted[k].First()
      && (Near(current, sorted[k]) ==>
            MergeGroup(group, strip) == done + MergeFrom(Absorb(current, sorted[k], strip), spans + [LinesOf(sorted[k])], sorted[k + 1..], strip))
  {
    SortedGroup(group);
    var sorted := Sort(group, ByLine);
    var prefix, last := sorted[..k], [sorted[k]] + sorted[k + 1..];
    CutAt(sorted, k);
    SortedStays(prefix, ByLine);
    done, current, spans := MergeSplit(sorted[0], [LinesOf(sorted[0])], sorted[1..k], last, strip);
    assert sorted[k] in last && last[1..] == sorted[k + 1..];
  }

  lemma CutAt(sorted: seq<Hit>, k: nat)
    requires 0 < k < |sorted|
    ensures sorted[1..] == sorted[1..k] + ([sorted[k]] + sorted[k + 1..])
    ensures sorted[..k][1..] == sorted[1..k] && sorted[..k][0] == sorted[0]
  {
  }

  // ------------------------------------------------------------ what a result begins with

  /** Blanks aside, the text begins with the part. */
  predicate Begins(text: string, part: string, blank: char -> bool) {
    exists n :: 0 <= n <= |text| && (forall k :: 0 <= k < n ==> blank(text[k])) && part <= text[n..]
  }

  lemma TrimmedEnds(s: string, strip: string -> string, blank: char -> bool) returns (i: nat, j: nat)
    requires Trims(strip, blank)
    ensures Trimmed(s, i, j, blank) && strip(s) == s[i..j]
  {
    var stripped := strip(s);
    i, j :| Trimmed(s, i, j, blank) && stripped == s[i..j];
  }

  lemma BeginsSurvives(s: string, part: string, strip: string -> string, blank: char -> bool)
    requires Trims(strip, blank) && Tight(part, blank) && Begins(s, part, blank)
    ensures Begins(strip(s), part, blank)
  {
    var i, j := TrimmedEnds(s, strip, blank);
    var n :| 0 <= n <= |s| && (forall k :: 0 <= k < n ==> blank(s[k])) && part <= s[n..];
    assert s[n] == part[0] && s[n + |part| - 1] == part[|part| - 1];
    SliceBegins(s, part, i, j, n);
    assert forall k :: 0 <= k < n - i ==> s[i..j][k] == s[i + k];
  }

  lemma SliceBegins(s: string, part: string, i: nat, j: nat, n: nat)
    requires i <= n && n + |part| <= j <= |s| && part <= s[n..]
    ensures part <= s[i..j][n - i..]
  {
    assert s[i..j][n - i..] == s[n..j];
    assert part <= s[n..j];
  }

  lemma BeginsLonger(s: string, more: string, part: string, blank: char -> bool)
    requires Begins(s, part, blank)
    ensures Begins(s + more, part, blank)
  {
    var n :| 0 <= n <= |s| && (forall k :: 0 <= k < n ==> blank(s[k])) && part <= s[n..];
    assert (s + more)[n..] == s[n..] + more;
  }

  /** The result takes its anchor and its first line from one hit, and begins with that hit's text. */
  ghost predicate LedBy(r: Hit, h: Hit, blank: char -> bool) {
    && r.anchor == h.anchor && r.line == h.line && r.file == h.file
    && forall part :: Tight(part, blank) && Begins(h.Text(), part, blank) ==> Begins(r.Text(), part, blank)
  }

  lemma AbsorbStaysLed(current: Hit, next: Hit, h: Hit, strip: string -> string, blank: char -> bool)
    requires Trims(strip, blank) && LedBy(current, h, blank)
    ensures LedBy(Absorb(current, next, strip), h, blank)
  {
    forall part | Tight(part, blank) && Begins(h.Text(), part, blank)
      ensures Begins(Absorb(current, next, strip).Text(), part, blank)
    {
      BeginsLonger(current.Text(), "\n…\n" + next.Text(), part, blank);
      assert current.Text() + "\n…\n" + next.Text() == current.Text() + ("\n…\n" + next.Text());
      BeginsSurvives(current.Text() + "\n…\n" + next.Text(), part, strip, blank);
    }
  }

  // ------------------------------------------------------------ which hits make a result

  function LinesOfAll(hits: seq<Hit>): seq<Lines> {
    seq(|hits|, i requires 0 <= i < |hits| => LinesOf(hits[i]))
  }

  /** `r` is made of the hits of `run`, and of nothing else: a single hit stays as it is; of several it
      lists the lines in order, has the first one's anchor and text in front, reaches as far as the one
      that reaches farthest, and scores as the best. */
  ghost predicate MadeOf(r: Hit, run: seq<Hit>, blank: char -> bool) {
    && run != [] && LedBy(r, run[0], blank)
    && (|run| == 1 ==> r == run[0])
    && (|run| > 1 ==> r.merged == LinesOfAll(run))
    && (forall h :: h in run ==> h.Last() <= r.Last() && h.score <= r.score)
    && (exists h :: h in run && h.Last() == r.Last())
    && (exists h :: h in run && h.score == r.score)
  }

  ghost predicate OpenFor(current: Hit, spans: seq<Lines>, run: seq<Hit>, blank: char -> bool) {
    spans == LinesOfAll(run) && MadeOf(Close(current, spans), run, blank)
  }

  lemma OpenOne(h: Hit, blank: char -> bool)
    ensures OpenFor(h, [LinesOf(h)], [h], blank)
  {
    assert LinesOfAll([h]) == [LinesOf(h)];
    assert h in [h];
  }

  lemma AbsorbRun(current: Hit, spans: seq<Lines>, run: seq<Hit>, next: Hit, strip: string -> string, blank: char -> bool)
    requires Trims(strip, blank) && OpenFor(current, spans, run, blank)
    ensures OpenFor(Absorb(current, next, strip), spans + [LinesOf(next)], run + [next], blank)
  {
    var both, more, closed := Absorb(current, next, strip), run + [next], Close(current, spans);
    assert LinesOfAll(more) == spans + [LinesOf(next)];
    assert LedBy(current, run[0], blank);
    AbsorbStaysLed(current, next, run[0], strip, blank);
    var far :| far in run && far.Last() == closed.Last();
    var best :| best in run && best.score == closed.score;
    assert far in more && best in more && next in more;
  }

  function Flat(runs: seq<seq<Hit>>): seq<Hit> {
    if runs == [] then [] else runs[0] + Flat(runs[1..])
  }

  /** Results and runs go together one by one. */
  ghost predicate AllMadeOf(results: seq<Hit>, runs: seq<seq<Hit>>, blank: char -> bool) {
    |results| == |runs| && forall i :: 0 <= i < |runs| ==> MadeOf(results[i], runs[i], blank)
  }

  lemma {:induction false} RunsFrom(current: Hit, spans: seq<Lines>, run: seq<Hit>, rest: seq<Hit>, strip: string -> string, blank: char -> bool)
      returns (runs: seq<seq<Hit>>)
    requires Trims(strip, blank) && OpenFor(current, spans, run, blank)
    ensures Flat(runs) == run + rest && AllMadeOf(MergeFrom(current, spans, rest, strip), runs, blank)
    decreases rest
  {
    if rest == [] {
      runs := [run];
      assert runs[1..] == [] && run + rest == run;
    } else {
      var next := rest[0];
      assert rest == [next] + rest[1..];
      if Near(current, next) {
        AbsorbRun(current, spans, run, next, strip, blank);
        runs := RunsFrom(Absorb(current, next, strip), spans + [LinesOf(next)], run + [next], rest[1..], strip, blank);
        assert run + [next] + rest[1..] == run + rest;
      } else {
        OpenOne(next, blank);
        var more := RunsFrom(next, [LinesOf(next)], [next], rest[1..], strip, blank);
        runs := [run] + more;
        assert runs[1..] == more;
      }
    }
  }

  /** The hits in line order fall into runs, one for each result in turn, and each result is made of its run. */
  lemma GroupIsMadeOfRuns(group: seq<Hit>, strip: string -> string, blank: char -> bool) returns (runs: seq<seq<Hit>>)
    requires Trims(strip, blank)
    ensures Flat(runs) == Sort(group, ByLine) && AllMadeOf(MergeGroup(group, strip), runs, blank)
  {
    var sorted := Sort(group, ByLine);
    if sorted == [] {
      runs := [];
    } else {
      OpenOne(sorted[0], blank);
      runs := RunsFrom(sorted[0], [LinesOf(sorted[0])], [sorted[0]], sorted[1..], strip, blank);
      assert [sorted[0]] + sorted[1..] == sorted;
    }
  }

  // ------------------------------------------------------------ merging twice

  lemma SeparatedTail(all: seq<Hit>)
    requires Separated(all) && all != []
    ensures Separated(all[1..])
  {
    forall i, j | 0 <= i < j < |all| - 1
      ensures all[1..][i].Last() + MAX_GAP_LINES < all[1..][j].First()
    {
      assert all[1..][i] == all[i + 1] && all[1..][j] == all[j + 1];
    }
  }

  lemma {:induction false} SeparatedStays(all: seq<Hit>, strip: string -> string)
    requires Separated(all) && all != []
    ensures MergeFrom(all[0], [LinesOf(all[0])], all[1..], strip) == all
  {
    if |all| > 1 {
      SeparatedTail(all);
      var rest := all[1..];
      SeparatedStays(rest, strip);
      assert !Near(all[0], rest[0]) by {
        assert all[0].Last() + MAX_GAP_LINES < all[1].First();
      }
      assert all == [all[0]] + rest;
    } else {
      assert all == [all[0]];
    }
  }

  /** Merging what was merged changes nothing, not even the order. */
  lemma MergingTwiceIsMergingOnce(group: seq<Hit>, strip: string -> string)
    requires forall h :: h in group ==> h.WellFormed()
    ensures MergeGroup(MergeGroup(group, strip), strip) == MergeGroup(group, strip)
  {
    var merged := MergeGroup(group, strip);
    GroupIsSeparated(group, strip);
    forall r | r in merged
      ensures r.WellFormed()
    {
      GroupIsJustified(group, strip, r);
      JustifiedIsWellFormed(r, group);
    }
    if merged != [] {
      SeparatedIsSorted(merged);
      SortedStays(merged, ByLine);
      SeparatedStays(merged, strip);
    }
  }

  lemma SeparatedIsSorted(merged: seq<Hit>)
    requires Separated(merged) && forall r :: r in merged ==> r.WellFormed()
    ensures Sorted(merged, ByLine)
  {
    forall i, j | 0 <= i < j < |merged|
      ensures ByLine(merged[i], merged[j])
    {
      assert merged[i] in merged && merged[i].Last() + MAX_GAP_LINES < merged[j].First();
    }
  }

  lemma JustifiedIsWellFormed(r: Hit, from: seq<Hit>)
    requires Justified(r, from) && forall h :: h in from ==> h.WellFormed()
    ensures r.WellFormed()
  {
    var h :| h in from && h.score == r.score && r.Covers(h);
  }

  // ------------------------------------------------------------ all files

  function InFile(file: string): Hit -> bool {
    (h: Hit) => h.Located() && h.file == file
  }

  function Nowhere(): Hit -> bool {
    (h: Hit) => !h.Located()
  }

  function OfFile(hits: seq<Hit>, file: string): seq<Hit> {
    Pick(hits, InFile(file))
  }

  function Unlocated(hits: seq<Hit>): seq<Hit> {
    Pick(hits, Nowhere())
  }

  method MergeAdjacentHits(hits: seq<Hit>, strip: string -> string) returns (merged: seq<Hit>)
    ensures forall i, j :: 0 <= i < j < |merged| ==> merged[i].score >= merged[j].score
    ensures SameAs(merged, hits, strip)
  {
    var files, groups, passthrough := GroupByFile(hits);
    merged := passthrough;
    PassthroughAlone(hits, files, strip);
    var n := 0;
    while n < |files|
      invariant 0 <= n <= |files|
      invariant MergedUpTo(hits, files[..n], merged, strip)
    {
      FileIsGrouped(hits, files, groups, passthrough, n);
      var part := MergeFile(groups[files[n]], strip);
      MergeOneMore(hits, files, groups, passthrough, n, merged, strip);
      merged := merged + part;
      n := n + 1;
    }
    ghost var all := merged;
    merged := Sort(merged, ByScore);
    SortSorts(all, ByScore);
    SortKeeps(all, ByScore);
    assert forall i, j :: 0 <= i < j < |merged| ==> ByScore(merged[i], merged[j]);
    AllMerged(hits, files, groups, passthrough, all, merged, strip);
  }

  method GroupByFile(hits: seq<Hit>) returns (files: seq<string>, groups: map<string, seq<Hit>>, passthrough: seq<Hit>)
    ensures Grouped(hits, files, groups, passthrough)
  {
    files, groups, passthrough := [], map[], [];
    var n := 0;
    while n < |hits|
      invariant 0 <= n <= |hits|
      invariant Grouped(hits[..n], files, groups, passthrough)
    {
      var hit := hits[n];
      assert hits[..n + 1] == hits[..n] + [hit];
      if !hit.Located() {
        PassOneMore(hits[..n], hit, files, groups, passthrough);
        passthrough := passthrough + [hit];
      } else {
        GroupOneMore(hits[..n], hit, files, groups, passthrough);
        if hit.file !in groups {
          files := files + [hit.file];
        }
        groups := groups[hit.file := Group(groups, hit.file) + [hit]];
      }
      n := n + 1;
    }
    assert hits[..n] == hits;
  }

  function Group(groups: map<string, seq<Hit>>, file: string): seq<Hit> {
    if file in groups then groups[file] else []
  }

  /** File by file `merged` holds the merged hits, and those that have no place as they were. */
  ghost predicate SameAs(merged: seq<Hit>, hits: seq<Hit>, strip: string -> string) {
    && multiset(Unlocated(merged)) == multiset(Unlocated(hits))
    && (forall file :: multiset(OfFile(merged, file)) == multiset(MergeGroup(OfFile(hits, file), strip)))
  }

  ghost predicate GroupOk(hits: seq<Hit>, files: seq<string>, groups: map<string, seq<Hit>>, file: string) {
    && (file in files <==> file in groups)
    && OfFile(hits, file) == Group(groups, file)
    && (file in groups ==> groups[file] != [])
  }

  /** `groups` holds the located hits by file, `files` the files in order of first appearance. */
  ghost predicate Grouped(hits: seq<Hit>, files: seq<string>, groups: map<string, seq<Hit>>, passthrough: seq<Hit>) {
    && NoDuplicates(files)
    && (forall file :: GroupOk(hits, files, groups, file))
    && passthrough == Unlocated(hits)
  }

  lemma PassOneMore(hits: seq<Hit>, hit: Hit, files: seq<string>, groups: map<string, seq<Hit>>, passthrough: seq<Hit>)
    requires Grouped(hits, files, groups, passthrough) && !hit.Located()
    ensures Grouped(hits + [hit], files, groups, passthrough + [hit])
  {
    PickOneMore(hits, hit, Nowhere());
    forall file
      ensures GroupOk(hits + [hit], files, groups, file)
    {
      assert GroupOk(hits, files, groups, file);
      PickOneMore(hits, hit, InFile(file));
    }
  }

  lemma GroupOneMore(hits: seq<Hit>, hit: Hit, files: seq<string>, groups: map<string, seq<Hit>>, passthrough: seq<Hit>)
    requires Grouped(hits, files, groups, passthrough) && hit.Located()
    ensures Grouped(hits + [hit], if hit.file in groups then files else files + [hit.file],
                    groups[hit.file := Group(groups, hit.file) + [hit]], passthrough)
  {
    PickOneMore(hits, hit, Nowhere());
    var known := if hit.file in groups then files else files + [hit.file];
    var more := groups[hit.file := Group(groups, hit.file) + [hit]];
    assert GroupOk(hits, files, groups, hit.file);
    forall file
      ensures GroupOk(hits + [hit], known, more, file)
    {
      assert GroupOk(hits, files, groups, file);
      PickOneMore(hits, hit, InFile(file));
    }
  }

  lemma FileIsGrouped(hits: seq<Hit>, files: seq<string>, groups: map<string, seq<Hit>>, passthrough: seq<Hit>, n: nat)
    requires Grouped(hits, files, groups, passthrough) && n < |files|
    ensures files[n] in groups && groups[files[n]] == OfFile(hits, files[n]) && groups[files[n]] != []
  {
    assert GroupOk(hits, files, groups, files[n]);
  }

  predicate AllOf(hits: seq<Hit>, file: string) {
    forall h :: h in hits ==> h.Located() && h.file == file
  }

  lemma {:induction false} MergeStays(current: Hit, spans: seq<Lines>, rest: seq<Hit>, file: string, strip: string -> string)
    requires current.Located() && current.file == file && AllOf(rest, file)
    ensures AllOf(MergeFrom(current, spans, rest, strip), file)
    decreases rest
  {
    if rest != [] {
      assert rest[0] in rest;
      if Near(current, rest[0]) {
        MergeStays(Absorb(current, rest[0], strip), spans + [LinesOf(rest[0])], rest[1..], file, strip);
      } else {
        MergeStays(rest[0], [LinesOf(rest[0])], rest[1..], file, strip);
      }
    }
  }

  /** The merged hits of a file are hits of that file. */
  lemma GroupStays(hits: seq<Hit>, file: string, strip: string -> string)
    ensures AllOf(MergeGroup(OfFile(hits, file), strip), file)
  {
    var group := OfFile(hits, file);
    forall h | h in group
      ensures h.Located() && h.file == file
    {
      PickMembers(hits, InFile(file), h);
    }
    SortedGroup(group);
    var sorted := Sort(group, ByLine);
    if sorted != [] {
      assert sorted[0] in sorted;
      MergeStays(sorted[0], [LinesOf(sorted[0])], sorted[1..], file, strip);
    }
  }

  /** The files merged so far stand in `merged`, besides what has no place. */
  ghost predicate MergedUpTo(hits: seq<Hit>, done: seq<string>, merged: seq<Hit>, strip: string -> string) {
    && Unlocated(merged) == Unlocated(hits)
    && (forall file :: OfFile(merged, file) == if file in done then MergeGroup(OfFile(hits, file), strip) else [])
  }

  lemma PassthroughAlone(hits: seq<Hit>, files: seq<string>, strip: string -> string)
    ensures MergedUpTo(hits, files[..0], Unlocated(hits), strip)
  {
    var alone := Unlocated(hits);
    forall h | h in alone
      ensures !h.Located()
    {
      PickMembers(hits, Nowhere(), h);
    }
    PickAll(alone, Nowhere());
    forall file
      ensures OfFile(alone, file) == []
    {
      PickNone(alone, InFile(file));
    }
  }

  lemma MergeOneMore(hits: seq<Hit>, files: seq<string>, groups: map<string, seq<Hit>>, passthrough: seq<Hit>,
                     n: nat, merged: seq<Hit>, strip: string -> string)
    requires n < |files| && Grouped(hits, files, groups, passthrough) && MergedUpTo(hits, files[..n], merged, strip)
    ensures MergedUpTo(hits, files[..n + 1], merged + MergeGroup(OfFile(hits, files[n]), strip), strip)
  {
    var file := files[n];
    var part := MergeGroup(OfFile(hits, file), strip);
    GroupStays(hits, file, strip);
    PickAppend(merged, part, Nowhere());
    PickNone(part, Nowhere());
    forall other
      ensures OfFile(merged + part, other) == if other == file then part else OfFile(merged, other)
    {
      PickAppend(merged, part, InFile(other));
      if other == file {
        assert file !in files[..n];
        PickAll(part, InFile(other));
      } else {
        PickNone(part, InFile(other));
      }
    }
    assert forall other :: other in files[..n + 1] <==> other in files[..n] || other == file;
  }

  lemma AllMerged(hits: seq<Hit>, files: seq<string>, groups: map<string, seq<Hit>>, passthrough: seq<Hit>,
                  all: seq<Hit>, merged: seq<Hit>, strip: string -> string)
    requires Grouped(hits, files, groups, passthrough) && MergedUpTo(hits, files[..|files|], all, strip)
    requires multiset(merged) == multiset(all)
    ensures SameAs(merged, hits, strip)
  {
    SamePick(merged, all, Nowhere());
    assert multiset(Unlocated(merged)) == multiset(Unlocated(all));
    forall file
      ensures multiset(OfFile(merged, file)) == multiset(MergeGroup(OfFile(hits, file), strip))
    {
      SamePick(merged, all, InFile(file));
      assert multiset(OfFile(merged, file)) == multiset(OfFile(all, file));
      assert GroupOk(hits, files, groups, file);
      assert files[..|files|] == files;
      if file !in groups {
        assert Sort(OfFile(hits, file), ByLine) == [];
      }
    }
  }

  // ------------------------------------------------------------ packing

  datatype Detail = Anchor | Excerpt | Full

  function EstimateTokens(text: string): nat {
    |text| / 4 + 1
  }

  /** A hit's content as it would be sent. */
  function Shown(content: string, detail: Detail): string {
    if detail == Excerpt && |content| > EXCERPT_CHAR_CAP then content[..EXCERPT_CHAR_CAP] + "…" else content
  }

  /** What the contents that are sent cost together. */
  function Spent(packed: seq<Hit>): nat {
    if packed == [] then 0
    else
      var last := packed[|packed| - 1];
      Spent(packed[..|packed| - 1]) + if last.Text() == "" then 0 else EstimateTokens(last.Text())
  }

  /** The content of a hit is sent exactly when it fits into what those before it leave. */
  predicate PackedOk(hits: seq<Hit>, packed: seq<Hit>, detail: Detail, budget: int, i: nat)
    requires i < |hits| == |packed|
  {
    var shown := Shown(hits[i].Text(), detail);
    packed[i] == hits[i].(content :=
      if detail == Anchor then None
      else if hits[i].Text() == "" then hits[i].content
      else if Spent(packed[..i]) + EstimateTokens(shown) <= budget then Some(shown)
      else None)
  }

  method PackHits(hits: seq<Hit>, detail: Detail, budget: int) returns (packed: seq<Hit>)
    ensures |packed| == |hits|
    ensures forall i :: 0 <= i < |hits| ==> PackedOk(hits, packed, detail, budget, i)
  {
    packed := [];
    var spent := 0;
    var n := 0;
    while n < |hits|
      invariant 0 <= n <= |hits| && |packed| == n && spent == Spent(packed)
      invariant forall i :: 0 <= i < n ==> PackedOk(hits[..n], packed, detail, budget, i)
    {
      var out := hits[n];
      var content := out.Text();
      if detail == Anchor {
        out := out.(content := None);
      } else if content != "" {
        if detail == Excerpt && |content| > EXCERPT_CHAR_CAP {
          content := content[..EXCERPT_CHAR_CAP] + "…";
        }
        var cost := EstimateTokens(content);
        if spent + cost > budget {
          out := out.(content := None);
        } else {
          out := out.(content := Some(content));
          spent := spent + cost;
        }
      }
      PackOneMore(hits, packed, detail, budget, out);
      packed := packed + [out];
      n := n + 1;
    }
    assert hits[..n] == hits;
  }

  lemma PackOneMore(hits: seq<Hit>, packed: seq<Hit>, detail: Detail, budget: int, out: Hit)
    requires |packed| < |hits|
    requires forall i :: 0 <= i < |packed| ==> PackedOk(hits[..|packed|], packed, detail, budget, i)
    requires out == hits[|packed|].(content := out.content)
    requires out.content == (
      var shown := Shown(hits[|packed|].Text(), detail);
      if detail == Anchor then None
      else if hits[|packed|].Text() == "" then hits[|packed|].content
      else if Spent(packed) + EstimateTokens(shown) <= budget then Some(shown)
      else None)
    ensures var more := packed + [out];
      && Spent(more) == Spent(packed) + (if out.Text() == "" then 0 else EstimateTokens(out.Text()))
      && forall i :: 0 <= i < |more| ==> PackedOk(hits[..|more|], more, detail, budget, i)
  {
    var n, more := |packed|, packed + [out];
    assert more[..n] == packed;
    forall i | 0 <= i < |more|
      ensures PackedOk(hits[..|more|], more, detail, budget, i)
    {
      if i < n {
        assert PackedOk(hits[..n], packed, detail, budget, i);
        assert more[..i] == packed[..i];
      }
    }
  }

  lemma {:induction false} SpentGrows(packed: seq<Hit>, i: nat)
    requires i <= |packed|
    ensures Spent(packed[..i]) <= Spent(packed)
  {
    if i < |packed| {
      var shorter := packed[..|packed| - 1];
      SpentGrows(shorter, i);
      assert shorter[..i] == packed[..i];
    } else {
      assert packed[..i] == packed;
    }
  }

  /** Packing stays within the budget. */
  lemma {:induction false} PackingFits(hits: seq<Hit>, packed: seq<Hit>, detail: Detail, budget: int, n: nat)
    requires |packed| == |hits| && n <= |hits|
    requires forall i :: 0 <= i < |hits| ==> PackedOk(hits, packed, detail, budget, i)
    ensures Spent(packed[..n]) == 0 || Spent(packed[..n]) <= budget
  {
    if n > 0 {
      PackingFits(hits, packed, detail, budget, n - 1);
      assert PackedOk(hits, packed, detail, budget, n - 1);
      assert packed[..n][..n - 1] == packed[..n - 1];
    }
  }

  /** A content left out for the budget does not fit into what is left at the end either, and every
      hit keeps all but its content. */
  lemma LeftOutDoesNotFit(hits: seq<Hit>, packed: seq<Hit>, detail: Detail, budget: int, i: nat)
    requires |packed| == |hits| && i < |hits|
    requires forall i :: 0 <= i < |hits| ==> PackedOk(hits, packed, detail, budget, i)
    ensures packed[i].anchor == hits[i].anchor && packed[i] == hits[i].(content := packed[i].content)
    ensures detail != Anchor && hits[i].Text() != "" && packed[i].content == None ==>
      Spent(packed) + EstimateTokens(Shown(hits[i].Text(), detail)) > budget
  {
    SpentGrows(packed, i);
    assert PackedOk(hits, packed, detail, budget, i);
  }

  /** What is sent of a content: all of it, or in an excerpt its first 700 characters and a mark. */
  lemma WhatIsSent(hits: seq<Hit>, packed: seq<Hit>, detail: Detail, budget: int, i: nat)
    requires |packed| == |hits| && i < |hits| && packed[i].content.Some?
    requires forall i :: 0 <= i < |hits| ==> PackedOk(hits, packed, detail, budget, i)
    ensures detail == Full || detail == Excerpt
    ensures packed[i].Text() == if detail == Full || |hits[i].Text()| <= 700 then hits[i].Text() else hits[i].Text()[..700] + "…"
  {
    assert PackedOk(hits, packed, detail, budget, i);
  }

  function Chars(packed: seq<Hit>): nat {
    if packed == [] then 0 else Chars(packed[..|packed| - 1]) + |packed[|packed| - 1].Text()|
  }

  /** A token stands for four characters, rounded up by hit. */
  lemma {:induction false} SpentInChars(packed: seq<Hit>)
    ensures Chars(packed) <= 4 * Spent(packed) <= Chars(packed) + 4 * |packed|
  {
    if packed != [] {
      SpentInChars(packed[..|packed| - 1]);
    }
  }

  /** In characters: what is sent is at most four times the budget, and what is left out would have gone
      past that but for the rounding. */
  lemma BudgetInChars(hits: seq<Hit>, packed: seq<Hit>, detail: Detail, budget: int, i: nat)
    requires |packed| == |hits| && i < |hits|
    requires forall i :: 0 <= i < |hits| ==> PackedOk(hits, packed, detail, budget, i)
    ensures Chars(packed) == 0 || Chars(packed) <= 4 * budget
    ensures detail == Full && hits[i].Text() != "" && packed[i].content == None ==>
      Chars(packed) + |hits[i].Text()| + 4 * |packed| >= 4 * budget
  {
    PackingFits(hits, packed, detail, budget, |hits|);
    assert packed[..|packed|] == packed;
    SpentInChars(packed);
    LeftOutDoesNotFit(hits, packed, detail, budget, i);
  }
}
