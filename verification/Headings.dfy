/** Heading ancestry, computed by filtering a stack in the chunker and by popping one in the graph
    extractor. A heading is its index; `levels` are the heading levels in document order. */
module Headings {
  import opened Stores

  /** The nearest of the first `n` headings with a level below `level`. */
  function Nearest(levels: seq<nat>, n: nat, level: nat): (r: Option<nat>)
    requires n <= |levels|
    ensures r.Some? ==> r.value < n && levels[r.value] < level
  {
    if n == 0 then None
    else if levels[n - 1] < level then Some(n - 1)
    else Nearest(levels, n - 1, level)
  }

  lemma {:induction false} NearestIsNearest(levels: seq<nat>, n: nat, level: nat)
    requires n <= |levels|
    ensures var r := Nearest(levels, n, level);
      forall j :: (if r.Some? then r.value + 1 else 0) <= j < n ==> levels[j] >= level
  {
    if n > 0 && levels[n - 1] >= level {
      NearestIsNearest(levels, n - 1, level);
    }
  }

  function Parent(levels: seq<nat>, i: nat): Option<nat>
    requires i < |levels|
  {
    Nearest(levels, i, levels[i])
  }

  /** The headings from the top down to `i`, each the parent of the next. */
  function Chain(levels: seq<nat>, i: nat): seq<nat>
    requires i < |levels|
    decreases i
  {
    (match Parent(levels, i) case None => [] case Some(p) => Chain(levels, p)) + [i]
  }

  /** The stack once the first `n` headings have been read. */
  function Open(levels: seq<nat>, n: nat): seq<nat>
    requires n <= |levels|
  {
    if n == 0 then [] else Chain(levels, n - 1)
  }

  predicate Indexes(levels: seq<nat>, stack: seq<nat>) {
    forall k :: 0 <= k < |stack| ==> stack[k] < |levels|
  }

  /** The entries of a stack with a level below `level`. */
  function Below(levels: seq<nat>, stack: seq<nat>, level: nat): seq<nat> {
    if stack == [] then []
    else
      var rest := Below(levels, stack[..|stack| - 1], level);
      var top := stack[|stack| - 1];
      if top < |levels| && levels[top] < level then rest + [top] else rest
  }

  function PathOf(levels: seq<nat>, r: Option<nat>): seq<nat>
    requires r.Some? ==> r.value < |levels|
  {
    match r case None => [] case Some(p) => Chain(levels, p)
  }

  predicate Climbs(levels: seq<nat>, stack: seq<nat>) {
    && Indexes(levels, stack)
    && (forall j, k :: 0 <= j < k < |stack| ==> levels[stack[j]] < levels[stack[k]])
  }

  /** A chain has strictly rising levels and skips only headings at or below the next link. */
  lemma {:induction false} ChainClimbs(levels: seq<nat>, i: nat)
    requires i < |levels|
    ensures var c := Chain(levels, i); Climbs(levels, c) && c[|c| - 1] == i
    decreases i
  {
    if Parent(levels, i).Some? {
      ChainClimbs(levels, Parent(levels, i).value);
    }
  }

  /** Walking up a chain from its last heading meets the nearest smaller level first. */
  lemma {:induction false} ChainFindsNearest(levels: seq<nat>, i: nat, level: nat)
    requires i < |levels|
    ensures Nearest(levels, i + 1, level) ==
      if levels[i] < level then Some(i)
      else match Parent(levels, i)
        case None => None
        case Some(p) => Nearest(levels, p + 1, level)
    decreases i
  {
    if levels[i] >= level {
      NearestIsNearest(levels, i, levels[i]);
      var lo := if Parent(levels, i).Some? then Parent(levels, i).value + 1 else 0;
      SkipHigher(levels, lo, i, level);
    }
  }

  lemma {:induction false} SkipHigher(levels: seq<nat>, lo: nat, hi: nat, level: nat)
    requires lo <= hi <= |levels| && forall j :: lo <= j < hi ==> levels[j] >= level
    ensures Nearest(levels, hi, level) == Nearest(levels, lo, level)
    decreases hi
  {
    if lo < hi {
      SkipHigher(levels, lo, hi - 1, level);
    }
  }

  lemma ChainIsPath(levels: seq<nat>, i: nat)
    requires i < |levels|
    ensures Chain(levels, i) == PathOf(levels, Parent(levels, i)) + [i]
  {
  }

  /** Ancestors of a next heading: the open stack cut to the levels below it. */
  lemma {:induction false} CutOpen(levels: seq<nat>, n: nat, level: nat)
    requires n <= |levels|
    ensures Below(levels, Open(levels, n), level) == PathOf(levels, Nearest(levels, n, level))
  {
    if n > 0 {
      var top, c := n - 1, Chain(levels, n - 1);
      ChainFindsNearest(levels, top, level);
      ChainIsPath(levels, top);
      var up := PathOf(levels, Parent(levels, top));
      assert c[..|c| - 1] == up && c[|c| - 1] == top;
      if levels[top] < level {
        ChainClimbs(levels, top);
        AllBelow(levels, c, level);
      } else if Parent(levels, top).Some? {
        CutOpen(levels, Parent(levels, top).value + 1, level);
      }
    }
  }

  lemma {:induction false} AllBelow(levels: seq<nat>, stack: seq<nat>, level: nat)
    requires Climbs(levels, stack) && (stack != [] ==> levels[stack[|stack| - 1]] < level)
    ensures Below(levels, stack, level) == stack
  {
    if stack != [] {
      var rest := stack[..|stack| - 1];
      assert rest != [] ==> levels[rest[|rest| - 1]] < levels[stack[|stack| - 1]];
      AllBelow(levels, rest, level);
    }
  }

  // ------------------------------------------------------------ the two loops

  function Chains(levels: seq<nat>, n: nat): seq<seq<nat>>
    requires n <= |levels|
  {
    if n == 0 then [] else Chains(levels, n - 1) + [Chain(levels, n - 1)]
  }

  lemma {:induction false} ChainsAt(levels: seq<nat>, n: nat)
    requires n <= |levels|
    ensures |Chains(levels, n)| == n && forall i :: 0 <= i < n ==> Chains(levels, n)[i] == Chain(levels, i)
  {
    if n > 0 {
      ChainsAt(levels, n - 1);
    }
  }

  /** `_chunk_markdown`: keep the stack entries of smaller level, then push. */
  method ChunkerPaths(levels: seq<nat>) returns (paths: seq<seq<nat>>)
    ensures |paths| == |levels| && forall i :: 0 <= i < |levels| ==> paths[i] == Chain(levels, i)
  {
    paths := [];
    var stack: seq<nat> := [];
    for i := 0 to |levels|
      invariant paths == Chains(levels, i) && stack == Open(levels, i)
    {
      CutOpen(levels, i, levels[i]);
      ChainIsPath(levels, i);
      stack := Below(levels, stack, levels[i]) + [i];
      paths := paths + [stack];
    }
    ChainsAt(levels, |levels|);
  }

  /** A stack that is the chain of its top. */
  predicate IsChain(levels: seq<nat>, stack: seq<nat>, n: nat)
    requires n <= |levels|
  {
    stack != [] ==> stack[|stack| - 1] < n && stack == Chain(levels, stack[|stack| - 1])
  }

  lemma PopStep(levels: seq<nat>, stack: seq<nat>, n: nat)
    requires n <= |levels| && stack != [] && IsChain(levels, stack, n)
    ensures IsChain(levels, stack[..|stack| - 1], n)
    ensures Parent(levels, stack[|stack| - 1]) == if |stack| == 1 then None else Some(stack[|stack| - 2])
  {
    var top := stack[|stack| - 1];
    if Parent(levels, top).Some? {
      ChainClimbs(levels, Parent(levels, top).value);
    }
  }

  /** The nearest smaller heading, once the headings above the stack are known to be too high. */
  function Search(levels: seq<nat>, stack: seq<nat>, n: nat, level: nat): Option<nat>
    requires n <= |levels| && IsChain(levels, stack, n)
  {
    if stack == [] then None else Nearest(levels, stack[|stack| - 1] + 1, level)
  }

  /** Pops while the top is not smaller: what is left on top is the parent. */
  method PopToParent(levels: seq<nat>, i: nat, open: seq<nat>) returns (stack: seq<nat>)
    requires i < |levels| && open == Open(levels, i)
    ensures stack == PathOf(levels, Parent(levels, i))
  {
    stack := open;
    if i > 0 {
      ChainClimbs(levels, i - 1);
    }
    while stack != [] && levels[stack[|stack| - 1]] >= levels[i]
      invariant IsChain(levels, stack, i)
      invariant Search(levels, stack, i, levels[i]) == Parent(levels, i)
      decreases |stack|
    {
      ChainFindsNearest(levels, stack[|stack| - 1], levels[i]);
      PopStep(levels, stack, i);
      stack := stack[..|stack| - 1];
    }
    if stack != [] {
      ChainFindsNearest(levels, stack[|stack| - 1], levels[i]);
    }
  }

  /** `_add_doc_headings`: pop while the top is not smaller, take the top as parent, push. */
  method ExtractorParents(levels: seq<nat>) returns (parents: seq<Option<nat>>)
    ensures |parents| == |levels| && forall i :: 0 <= i < |levels| ==> parents[i] == Parent(levels, i)
  {
    parents := [];
    var stack: seq<nat> := [];
    for i := 0 to |levels|
      invariant |parents| == i && forall j :: 0 <= j < i ==> parents[j] == Parent(levels, j)
      invariant stack == Open(levels, i)
    {
      stack := PopToParent(levels, i, stack);
      if Parent(levels, i).Some? {
        ChainClimbs(levels, Parent(levels, i).value);
      }
      parents := parents + [if stack == [] then None else Some(stack[|stack| - 1])];
      stack := stack + [i];
    }
  }

  /** Both computations describe one forest: the path of a heading is the path of its parent with
      the heading added. */
  lemma TwoStacksAgree(levels: seq<nat>, paths: seq<seq<nat>>, parents: seq<Option<nat>>)
    requires |paths| == |parents| == |levels|
    requires forall i :: 0 <= i < |levels| ==> paths[i] == Chain(levels, i) && parents[i] == Parent(levels, i)
    ensures forall i :: 0 <= i < |levels| ==>
      paths[i] == (match parents[i] case None => [] case Some(p) => if p < |levels| then paths[p] else []) + [i]
    ensures forall i, j :: 0 <= i < |levels| && 0 <= j < i ==>
      (j in paths[i] <==> forall k :: j < k <= i ==> levels[j] < levels[k])
  {
    forall i, j | 0 <= i < |levels| && 0 <= j < i
      ensures j in paths[i] <==> forall k :: j < k <= i ==> levels[j] < levels[k]
    {
      AncestorIff(levels, i, j);
    }
  }

  /** A heading is an ancestor exactly when everything after it, up to and including the heading in
      question, lies deeper. */
  lemma {:induction false} AncestorIff(levels: seq<nat>, i: nat, j: nat)
    requires j < i < |levels|
    ensures j in Chain(levels, i) <==> forall k :: j < k <= i ==> levels[j] < levels[k]
    decreases i
  {
    NearestIsNearest(levels, i, levels[i]);
    match Parent(levels, i)
    case None =>
      assert levels[j] >= levels[i];
    case Some(p) =>
      if j < p {
        AncestorIff(levels, p, j);
      } else if j == p {
        ChainClimbs(levels, p);
      } else {
        ChainBounds(levels, p);
        assert levels[j] >= levels[i];
      }
  }

  lemma {:induction false} ChainBounds(levels: seq<nat>, i: nat)
    requires i < |levels|
    ensures forall h :: h in Chain(levels, i) ==> h <= i
    decreases i
  {
    if Parent(levels, i).Some? {
      ChainBounds(levels, Parent(levels, i).value);
    }
  }
}
