/** `_split_oversized`: character-bounded splitting with overlap, and the line numbers it reports. */
module Splitter {

  const MAX_CHUNK_CHARS: nat := 1200
  const SPLIT_TARGET: nat := 700
  const SPLIT_OVERLAP: nat := 70

  /** Characters in a run of lines, line ends included. */
  function Size(lines: seq<string>): nat {
    if lines == [] then 0 else |lines[0]| + Size(lines[1..])
  }

  function Join(lines: seq<string>): string {
    if lines == [] then "" else lines[0] + Join(lines[1..])
  }

  function StripNewlines(s: string): string
    decreases |s|
  {
    if s != "" && s[|s| - 1] == '\n' then StripNewlines(s[..|s| - 1]) else s
  }

  /** A yielded pair, with the lines its buffer ran over (from `from`, up to `end`). */
  datatype Piece = Piece(start: int, text: string, from: nat, end: nat)

  lemma {:induction false} SizeConcat(a: seq<string>, b: seq<string>)
    ensures Size(a + b) == Size(a) + Size(b)
  {
    if a == [] {
      assert a + b == b;
    } else {
      assert (a + b)[0] == a[0] && (a + b)[1..] == a[1..] + b;
      SizeConcat(a[1..], b);
    }
  }

  lemma {:induction false} JoinConcat(a: seq<string>, b: seq<string>)
    ensures Join(a + b) == Join(a) + Join(b)
  {
    if a == [] {
      assert a + b == b;
    } else {
      assert (a + b)[0] == a[0] && (a + b)[1..] == a[1..] + b;
      JoinConcat(a[1..], b);
    }
  }

  lemma {:induction false} SizeIsLength(lines: seq<string>)
    ensures |Join(lines)| == Size(lines)
  {
    if lines != [] {
      SizeIsLength(lines[1..]);
    }
  }

  predicate NoLongerThan(lines: seq<string>, longest: nat) {
    forall i :: 0 <= i < |lines| ==> |lines[i]| <= longest
  }

  function Max(a: nat, b: nat): nat {
    if a < b then b else a
  }

  /** How many of the last lines make the overlap, if `k` of them are not enough by one. */
  function KeptFrom(buffer: seq<string>, k: nat): nat
    requires k <= |buffer|
    decreases |buffer| - k
  {
    if k == |buffer| || Size(buffer[|buffer| - k..]) >= SPLIT_OVERLAP then k else KeptFrom(buffer, k + 1)
  }

  function Kept(buffer: seq<string>): nat {
    if buffer == [] then 0 else KeptFrom(buffer, 1)
  }

  /** The overlap is the shortest suffix with at least `SPLIT_OVERLAP` characters, or everything. */
  lemma {:induction false} KeptIsShortest(buffer: seq<string>, k: nat)
    requires 0 < k <= |buffer| && Size(buffer[|buffer| - (k - 1)..]) < SPLIT_OVERLAP
    ensures var n := KeptFrom(buffer, k);
      && k <= n <= |buffer|
      && (n < |buffer| ==> Size(buffer[|buffer| - n..]) >= SPLIT_OVERLAP)
      && Size(buffer[|buffer| - (n - 1)..]) < SPLIT_OVERLAP
    decreases |buffer| - k
  {
    if !(k == |buffer| || Size(buffer[|buffer| - k..]) >= SPLIT_OVERLAP) {
      KeptIsShortest(buffer, k + 1);
    }
  }

  method Overlap(buffer: seq<string>) returns (kept: seq<string>)
    requires buffer != []
    ensures 0 < Kept(buffer) <= |buffer| && kept == buffer[|buffer| - Kept(buffer)..]
  {
    kept := [];
    var i, chars := |buffer|, 0;
    assert buffer[|buffer|..] == [];
    KeptIsShortest(buffer, 1);
    while i > 0
      invariant 0 <= i <= |buffer| && kept == buffer[i..] && chars == Size(kept)
      invariant i > 0 && Kept(buffer) == KeptFrom(buffer, |buffer| - i + 1)
    {
      i := i - 1;
      chars := chars + |buffer[i]|;
      kept := [buffer[i]] + kept;
      assert kept == buffer[i..] && kept[1..] == buffer[i + 1..];
      if chars >= SPLIT_OVERLAP || i == 0 {
        break;
      }
    }
  }

  /** Lines used up before piece `k`. */
  function Before(pieces: seq<Piece>, k: nat): nat
    requires k <= |pieces|
  {
    if k == 0 then 0 else pieces[k - 1].end
  }

  /** The piece ends with lines no earlier piece had and starts within, or right after, the piece
      before; it is bounded in size, and its reported start is exact for the first piece and one
      too high for every later one. */
  predicate PieceOk(lines: seq<string>, start: int, limit: nat, before: nat, first: bool, p: Piece) {
    && p.from <= before < p.end <= |lines|
    && (first ==> p.from == 0)
    && Size(lines[p.from..p.end]) <= limit
    && p.text == StripNewlines(Join(lines[p.from..p.end]))
    && p.start == start + p.from + if first then 0 else 1
  }

  predicate PiecesOk(lines: seq<string>, start: int, limit: nat, pieces: seq<Piece>) {
    pieces == []
    || (var n := |pieces| - 1;
        PiecesOk(lines, start, limit, pieces[..n])
        && PieceOk(lines, start, limit, Before(pieces, n), n == 0, pieces[n]))
  }

  /** Pieces of all lines. */
  predicate Complete(lines: seq<string>, start: int, limit: nat, pieces: seq<Piece>) {
    PiecesOk(lines, start, limit, pieces) && pieces != [] && pieces[|pieces| - 1].end == |lines|
  }

  lemma PushPiece(lines: seq<string>, start: int, limit: nat, pieces: seq<Piece>, p: Piece)
    requires PiecesOk(lines, start, limit, pieces)
    requires PieceOk(lines, start, limit, Before(pieces, |pieces|), pieces == [], p)
    ensures PiecesOk(lines, start, limit, pieces + [p])
  {
    assert (pieces + [p])[..|pieces|] == pieces;
  }

  lemma {:induction false} EachPieceOk(lines: seq<string>, start: int, limit: nat, pieces: seq<Piece>, k: nat)
    requires PiecesOk(lines, start, limit, pieces) && k < |pieces|
    ensures PieceOk(lines, start, limit, Before(pieces, k), k == 0, pieces[k])
  {
    if k < |pieces| - 1 {
      EachPieceOk(lines, start, limit, pieces[..|pieces| - 1], k);
    }
  }

  function Limit(longest: nat): nat {
    Max(SPLIT_TARGET, SPLIT_OVERLAP - 1 + 2 * longest)
  }

  // ------------------------------------------------------------ the loop

  /** What the loop holds: the pieces yielded, and the buffer with its reported start and its size. */
  datatype State = State(pieces: seq<Piece>, buffer: seq<string>, bufferStart: int, bufferSize: int)

  function Yielded(st: State, i: nat): Piece
    requires |st.buffer| <= i
  {
    Piece(st.bufferStart, StripNewlines(Join(st.buffer)), i - |st.buffer|, i)
  }

  lemma KeepFits(buffer: seq<string>)
    requires buffer != []
    ensures 0 < Kept(buffer) <= |buffer|
  {
    assert buffer[|buffer|..] == [];
    KeptIsShortest(buffer, 1);
  }

  function Flushed(st: State, start: int, i: nat): (r: State)
    requires |st.buffer| <= i && st.buffer != []
    ensures |r.buffer| <= i
  {
    KeepFits(st.buffer);
    var kept := st.buffer[|st.buffer| - Kept(st.buffer)..];
    State(st.pieces + [Yielded(st, i)], kept, start + i - |kept| + 1, Size(kept))
  }

  predicate Overflows(st: State, line: string) {
    st.bufferSize + |line| > SPLIT_TARGET && st.buffer != []
  }

  function Take(st: State, line: string): State {
    st.(buffer := st.buffer + [line], bufferSize := st.bufferSize + |line|)
  }

  /** Line `i` goes into the buffer. */
  function Step(st: State, start: int, i: nat, line: string): (r: State)
    requires |st.buffer| <= i
    ensures |r.buffer| <= i + 1
  {
    Take(if Overflows(st, line) then Flushed(st, start, i) else st, line)
  }

  function Loop(lines: seq<string>, start: int, i: nat): (r: State)
    requires i <= |lines|
    ensures |r.buffer| <= i
  {
    if i == 0 then State([], [], start, 0) else Step(Loop(lines, start, i - 1), start, i - 1, lines[i - 1])
  }

  /** Everything yielded of a text that has more than `MAX_CHUNK_CHARS` characters. */
  function AllPieces(lines: seq<string>, start: int): seq<Piece> {
    var st := Loop(lines, start, |lines|);
    st.pieces + [Yielded(st, |lines|)]
  }

  /** Splits `lines`, the text with its line ends kept. */
  method SplitOversized(lines: seq<string>, start: int) returns (pieces: seq<Piece>)
    ensures pieces == if Size(lines) <= MAX_CHUNK_CHARS then [Piece(start, Join(lines), 0, |lines|)] else AllPieces(lines, start)
  {
    if Size(lines) <= MAX_CHUNK_CHARS {
      return [Piece(start, Join(lines), 0, |lines|)];
    }
    pieces := [];
    var buffer: seq<string> := [];
    var bufferStart, bufferSize, cursor := start, 0, start;
    for i := 0 to |lines|
      invariant cursor == start + i
      invariant State(pieces, buffer, bufferStart, bufferSize) == Loop(lines, start, i)
    {
      var line := lines[i];
      if bufferSize + |line| > SPLIT_TARGET && buffer != [] {
        pieces := pieces + [Piece(bufferStart, StripNewlines(Join(buffer)), i - |buffer|, i)];
        buffer := Overlap(buffer);
        bufferStart, bufferSize := cursor - |buffer| + 1, Size(buffer);
      }
      buffer, bufferSize, cursor := buffer + [line], bufferSize + |line|, cursor + 1;
    }
    pieces := pieces + [Piece(bufferStart, StripNewlines(Join(buffer)), |lines| - |buffer|, |lines|)];
  }

  // ------------------------------------------------------------ what is yielded

  /** The buffer holds the last lines before line `i`, under the start that would be reported for it. */
  predicate Buffered(lines: seq<string>, start: int, limit: nat, st: State, i: nat) {
    && |st.buffer| <= i <= |lines|
    && PiecesOk(lines, start, limit, st.pieces)
    && st.buffer == lines[i - |st.buffer|..i] && st.bufferSize == Size(st.buffer)
    && i - |st.buffer| <= Before(st.pieces, |st.pieces|) <= i
    && (st.pieces == [] ==> |st.buffer| == i)
    && st.bufferStart == start + (i - |st.buffer|) + if st.pieces == [] then 0 else 1
  }

  predicate Going(lines: seq<string>, start: int, limit: nat, st: State, i: nat) {
    && Buffered(lines, start, limit, st, i)
    && (if i == 0 then st.pieces == [] else st.buffer != [] && Before(st.pieces, |st.pieces|) < i)
    && st.bufferSize <= limit
  }

  lemma YieldKeeps(lines: seq<string>, start: int, limit: nat, st: State, i: nat)
    requires i > 0 && Going(lines, start, limit, st, i)
    ensures PiecesOk(lines, start, limit, st.pieces + [Yielded(st, i)])
    ensures Before(st.pieces + [Yielded(st, i)], |st.pieces| + 1) == i
  {
    PushPiece(lines, start, limit, st.pieces, Yielded(st, i));
  }

  /** The overlap is short, since without its first line it has fewer than `SPLIT_OVERLAP` characters. */
  lemma KeepIsShort(buffer: seq<string>, longest: nat)
    requires buffer != [] && NoLongerThan(buffer, longest)
    ensures 0 < Kept(buffer) <= |buffer|
    ensures Size(buffer[|buffer| - Kept(buffer)..]) <= SPLIT_OVERLAP - 1 + longest
  {
    KeepFits(buffer);
    assert buffer[|buffer|..] == [];
    KeptIsShortest(buffer, 1);
    var kept := buffer[|buffer| - Kept(buffer)..];
    assert kept[1..] == buffer[|buffer| - (Kept(buffer) - 1)..];
  }

  lemma FlushKeeps(lines: seq<string>, start: int, longest: nat, st: State, i: nat)
    requires i > 0 && NoLongerThan(lines, longest) && Going(lines, start, Limit(longest), st, i)
    ensures Buffered(lines, start, Limit(longest), Flushed(st, start, i), i)
    ensures Flushed(st, start, i).bufferSize <= SPLIT_OVERLAP - 1 + longest
  {
    YieldKeeps(lines, start, Limit(longest), st, i);
    KeepIsShort(st.buffer, longest);
    var r := Flushed(st, start, i);
    assert r.buffer == lines[i - |r.buffer|..i];
  }

  lemma TakeKeeps(lines: seq<string>, start: int, limit: nat, st: State, i: nat)
    requires i < |lines| && Buffered(lines, start, limit, st, i) && st.bufferSize + |lines[i]| <= limit
    ensures Going(lines, start, limit, Take(st, lines[i]), i + 1)
  {
    SizeConcat(st.buffer, [lines[i]]);
    assert Size([lines[i]]) == |lines[i]|;
  }

  lemma {:induction false} LoopGoes(lines: seq<string>, start: int, longest: nat, i: nat)
    requires NoLongerThan(lines, longest) && i <= |lines|
    ensures Going(lines, start, Limit(longest), Loop(lines, start, i), i)
  {
    if i == 0 {
      StartGoes(lines, start, Limit(longest));
    } else {
      LoopGoes(lines, start, longest, i - 1);
      StepGoes(lines, start, longest, Loop(lines, start, i - 1), i - 1);
    }
  }

  lemma StartGoes(lines: seq<string>, start: int, limit: nat)
    ensures Going(lines, start, limit, State([], [], start, 0), 0)
  {
  }

  lemma RoomLeft(st: State, line: string, longest: nat)
    requires |line| <= longest
    ensures !Overflows(st, line) && st.bufferSize == Size(st.buffer) ==> st.bufferSize + |line| <= Limit(longest)
    ensures st.bufferSize <= SPLIT_OVERLAP - 1 + longest ==> st.bufferSize + |line| <= Limit(longest)
  {
  }

  lemma StepGoes(lines: seq<string>, start: int, longest: nat, st: State, i: nat)
    requires i < |lines| && NoLongerThan(lines, longest) && Going(lines, start, Limit(longest), st, i)
    ensures Going(lines, start, Limit(longest), Step(st, start, i, lines[i]), i + 1)
  {
    if Overflows(st, lines[i]) {
      FlushKeeps(lines, start, longest, st, i);
      RoomLeft(Flushed(st, start, i), lines[i], longest);
      TakeKeeps(lines, start, Limit(longest), Flushed(st, start, i), i);
    } else {
      RoomLeft(st, lines[i], longest);
      TakeKeeps(lines, start, Limit(longest), st, i);
    }
  }

  /** Of a text whose lines are no longer than `longest`, all lines are in the pieces, each piece has
      a line none before it had, and none is larger than the limit. */
  lemma PiecesAreComplete(lines: seq<string>, start: int, longest: nat)
    requires NoLongerThan(lines, longest) && Size(lines) > MAX_CHUNK_CHARS
    ensures Complete(lines, start, Limit(longest), AllPieces(lines, start))
  {
    LoopGoes(lines, start, longest, |lines|);
    YieldKeeps(lines, start, Limit(longest), Loop(lines, start, |lines|), |lines|);
  }

  /** The exact drift: the first reported start is right, every later one is one too high. */
  lemma StartsDrift(lines: seq<string>, start: int, longest: nat, k: nat)
    requires NoLongerThan(lines, longest) && Size(lines) > MAX_CHUNK_CHARS && k < |AllPieces(lines, start)|
    ensures var p := AllPieces(lines, start)[k];
      p.from < p.end <= |lines| && p.start == (start + p.from) + if k == 0 then 0 else 1
  {
    PiecesAreComplete(lines, start, longest);
    EachPieceOk(lines, start, Limit(longest), AllPieces(lines, start), k);
  }

  // ------------------------------------------------------------ no more pieces than needed

  /** The piece ends because the line after it would take it past 700 characters; the next one starts at
      `from`, with the fewest last lines of the piece that have 70 characters, or with all of them. */
  predicate Follows(lines: seq<string>, p: Piece, from: nat) {
    && p.from <= from < p.end < |lines|
    && Size(lines[p.from..p.end]) + |lines[p.end]| > 700
    && (p.from < from ==> Size(lines[from..p.end]) >= 70)
    && Size(lines[from + 1..p.end]) < 70
  }

  predicate Linked(lines: seq<string>, pieces: seq<Piece>) {
    forall k :: 0 <= k < |pieces| - 1 ==> Follows(lines, pieces[k], pieces[k + 1].from)
  }

  predicate Chained(lines: seq<string>, st: State, i: nat) {
    && |st.buffer| <= i && Linked(lines, st.pieces)
    && (st.pieces != [] ==> Follows(lines, st.pieces[|st.pieces| - 1], i - |st.buffer|))
  }

  lemma KeptIs(buffer: seq<string>)
    requires buffer != []
    ensures var n := Kept(buffer);
      && 0 < n <= |buffer|
      && (n < |buffer| ==> Size(buffer[|buffer| - n..]) >= SPLIT_OVERLAP)
      && Size(buffer[|buffer| - (n - 1)..]) < SPLIT_OVERLAP
  {
    assert buffer[|buffer|..] == [];
    KeptIsShortest(buffer, 1);
  }

  lemma Suffix(lines: seq<string>, from: nat, end: nat, n: nat)
    requires from <= end <= |lines| && n <= end - from
    ensures lines[from..end][end - from - n..] == lines[end - n..end]
  {
  }

  lemma CutFollows(lines: seq<string>, p: Piece)
    requires p.from < p.end < |lines| && Size(lines[p.from..p.end]) + |lines[p.end]| > 700
    ensures 0 < Kept(lines[p.from..p.end]) <= p.end - p.from
    ensures Follows(lines, p, p.end - Kept(lines[p.from..p.end]))
  {
    var b := lines[p.from..p.end];
    KeptIs(b);
    Suffix(lines, p.from, p.end, Kept(b));
    Suffix(lines, p.from, p.end, Kept(b) - 1);
  }

  lemma LinkedMore(lines: seq<string>, pieces: seq<Piece>, p: Piece)
    requires Linked(lines, pieces) && (pieces != [] ==> Follows(lines, pieces[|pieces| - 1], p.from))
    ensures Linked(lines, pieces + [p])
  {
  }

  /** The buffer holds the last lines before line `i`. */
  predicate Holds(lines: seq<string>, st: State, i: nat) {
    |st.buffer| <= i <= |lines| && st.buffer == lines[i - |st.buffer|..i] && st.bufferSize == Size(st.buffer)
  }

  lemma FlushedIs(st: State, start: int, i: nat)
    requires |st.buffer| <= i && st.buffer != []
    ensures 0 < Kept(st.buffer) <= |st.buffer|
    ensures Flushed(st, start, i).pieces == st.pieces + [Yielded(st, i)] && |Flushed(st, start, i).buffer| == Kept(st.buffer)
  {
    KeepFits(st.buffer);
  }

  lemma ChainedMore(lines: seq<string>, st: State, p: Piece, r: State, i: nat)
    requires Chained(lines, st, i) && p.from == i - |st.buffer|
    requires r.pieces == st.pieces + [p] && |r.buffer| <= i && Follows(lines, p, i - |r.buffer|)
    ensures Chained(lines, r, i)
  {
    LinkedMore(lines, st.pieces, p);
  }

  lemma YieldFollows(lines: seq<string>, st: State, i: nat)
    requires i < |lines| && Holds(lines, st, i) && Overflows(st, lines[i])
    ensures 0 < Kept(st.buffer) <= |st.buffer| && Follows(lines, Yielded(st, i), i - Kept(st.buffer))
  {
    var p := Yielded(st, i);
    assert lines[p.from..p.end] == st.buffer;
    CutFollows(lines, p);
  }

  lemma FlushChains(lines: seq<string>, start: int, st: State, i: nat)
    requires i < |lines| && Holds(lines, st, i) && Overflows(st, lines[i]) && Chained(lines, st, i)
    ensures Chained(lines, Flushed(st, start, i), i)
  {
    YieldFollows(lines, st, i);
    FlushedIs(st, start, i);
    ChainedMore(lines, st, Yielded(st, i), Flushed(st, start, i), i);
  }

  lemma TakeChains(lines: seq<string>, st: State, i: nat, line: string)
    requires Chained(lines, st, i)
    ensures Chained(lines, Take(st, line), i + 1)
  {
    assert i + 1 - |Take(st, line).buffer| == i - |st.buffer|;
  }

  lemma StepChains(lines: seq<string>, start: int, st: State, i: nat)
    requires i < |lines| && Holds(lines, st, i) && Chained(lines, st, i)
    ensures Chained(lines, Step(st, start, i, lines[i]), i + 1)
  {
    if Overflows(st, lines[i]) {
      FlushChains(lines, start, st, i);
      TakeChains(lines, Flushed(st, start, i), i, lines[i]);
    } else {
      TakeChains(lines, st, i, lines[i]);
    }
  }

  lemma GoingHolds(lines: seq<string>, start: int, limit: nat, st: State, i: nat)
    requires Going(lines, start, limit, st, i)
    ensures Holds(lines, st, i)
  {
  }

  lemma LoopIs(lines: seq<string>, start: int, i: nat)
    requires i < |lines|
    ensures Loop(lines, start, i + 1) == Step(Loop(lines, start, i), start, i, lines[i])
  {
  }

  lemma LoopHolds(lines: seq<string>, start: int, longest: nat, i: nat)
    requires NoLongerThan(lines, longest) && i <= |lines|
    ensures Holds(lines, Loop(lines, start, i), i)
  {
    LoopGoes(lines, start, longest, i);
    GoingHolds(lines, start, Limit(longest), Loop(lines, start, i), i);
  }

  lemma {:induction false} LoopChains(lines: seq<string>, start: int, longest: nat, i: nat) returns (st: State)
    requires NoLongerThan(lines, longest) && i <= |lines|
    ensures st == Loop(lines, start, i) && Chained(lines, st, i)
  {
    if i == 0 {
      st := State([], [], start, 0);
    } else {
      var before := LoopChains(lines, start, longest, i - 1);
      LoopHolds(lines, start, longest, i - 1);
      StepChains(lines, start, before, i - 1);
      LoopIs(lines, start, i - 1);
      st := Step(before, start, i - 1, lines[i - 1]);
    }
  }

  /** The text is cut only where it must be, and consecutive pieces overlap by as little as they may. */
  lemma PiecesAreLinked(lines: seq<string>, start: int, longest: nat)
    requires NoLongerThan(lines, longest)
    ensures Linked(lines, AllPieces(lines, start))
  {
    var st := LoopChains(lines, start, longest, |lines|);
    LinkedMore(lines, st.pieces, Yielded(st, |lines|));
  }

  // ------------------------------------------------------------ nothing is lost

  /** The text of each buffer without what it shares with the one before, joined. */
  function WithoutOverlaps(lines: seq<string>, start: int, limit: nat, pieces: seq<Piece>): string
    requires PiecesOk(lines, start, limit, pieces)
  {
    if pieces == [] then ""
    else
      var n := |pieces| - 1;
      var p, before := pieces[n], Before(pieces, n);
      var overlap := Size(lines[p.from..before]);
      OverlapFits(lines, p.from, before, p.end);
      WithoutOverlaps(lines, start, limit, pieces[..n]) + Join(lines[p.from..p.end])[overlap..]
  }

  lemma OverlapFits(lines: seq<string>, from: nat, mid: nat, end: nat)
    requires from <= mid <= end <= |lines|
    ensures Size(lines[from..mid]) <= |Join(lines[from..end])|
    ensures Join(lines[from..end])[Size(lines[from..mid])..] == Join(lines[mid..end])
    ensures Join(lines[..mid]) + Join(lines[mid..end]) == Join(lines[..end])
  {
    assert lines[from..mid] + lines[mid..end] == lines[from..end];
    assert lines[..mid] + lines[mid..end] == lines[..end];
    JoinConcat(lines[from..mid], lines[mid..end]);
    JoinConcat(lines[..mid], lines[mid..end]);
    SizeIsLength(lines[from..mid]);
  }

  lemma {:induction false} RebuiltSoFar(lines: seq<string>, start: int, limit: nat, pieces: seq<Piece>)
    requires PiecesOk(lines, start, limit, pieces)
    ensures Before(pieces, |pieces|) <= |lines|
    ensures WithoutOverlaps(lines, start, limit, pieces) == Join(lines[..Before(pieces, |pieces|)])
  {
    if pieces != [] {
      var n := |pieces| - 1;
      RebuiltSoFar(lines, start, limit, pieces[..n]);
      assert Before(pieces[..n], n) == Before(pieces, n);
      OverlapFits(lines, pieces[n].from, Before(pieces, n), pieces[n].end);
    }
  }

  /** Dropping each buffer's overlap and joining what is left gives the text back, character for
      character. */
  lemma OverlapsDroppedRebuild(lines: seq<string>, start: int, limit: nat, pieces: seq<Piece>)
    requires Complete(lines, start, limit, pieces)
    ensures WithoutOverlaps(lines, start, limit, pieces) == Join(lines)
  {
    RebuiltSoFar(lines, start, limit, pieces);
    assert lines[..|lines|] == lines;
  }

  /** What is yielded is the buffer without the line ends at its end, all of them. */
  lemma {:induction false} OnlyLineEndsStripped(s: string) returns (ends: string)
    ensures s == StripNewlines(s) + ends && forall i :: 0 <= i < |ends| ==> ends[i] == '\n'
    ensures StripNewlines(s) == "" || StripNewlines(s)[|StripNewlines(s)| - 1] != '\n'
    decreases |s|
  {
    if s != "" && s[|s| - 1] == '\n' {
      var fewer := OnlyLineEndsStripped(s[..|s| - 1]);
      ends := fewer + "\n";
    } else {
      ends := "";
    }
  }
}
