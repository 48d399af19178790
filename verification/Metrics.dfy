/** The ranking metrics of the evaluation harness, over reals and any falling discount. */
module Metrics {
  import opened Lists
  import opened Stores

  type Label = string

  /** Stands for 1 / log2(index + 2): positive, and less at each rank. */
  type Discount = nat -> real

  ghost predicate Falling(w: Discount) {
    (forall i :: w(i) > 0.0) && (forall i, j :: i < j ==> w(i) > w(j))
  }

  function Dcg(rels: seq<real>, w: Discount): real {
    if rels == [] then 0.0 else Dcg(rels[..|rels| - 1], w) + rels[|rels| - 1] * w(|rels| - 1)
  }

  function Ones(n: int): seq<real> {
    if n <= 0 then [] else Ones(n - 1) + [1.0]
  }

  function Min(a: int, b: int): int {
    if a < b then a else b
  }

  function Rels(hits: seq<bool>): seq<real> {
    seq(|hits|, i requires 0 <= i < |hits| => if hits[i] then 1.0 else 0.0)
  }

  function HitsOf(labels: seq<Label>, relevant: set<Label>): seq<bool> {
    seq(|labels|, i requires 0 <= i < |labels| => labels[i] in relevant)
  }

  function Ratio(actual: real, ideal: real): real {
    if ideal == 0.0 then 0.0 else actual / ideal
  }

  function NdcgAtK(retrieved: seq<Label>, relevant: set<Label>, k: int, w: Discount): real {
    if relevant == {} then if retrieved == [] then 1.0 else 0.0
    else Ratio(Dcg(Rels(HitsOf(Head(retrieved, k), relevant)), w), Dcg(Ones(Min(|relevant|, k)), w))
  }

  function NdcgByRelevance(relevance: seq<bool>, k: int, count: int, w: Discount): real {
    if count <= 0 then if true in Head(relevance, k) then 0.0 else 1.0
    else Ratio(Dcg(Rels(Head(relevance, k)), w), Dcg(Ones(Min(count, k)), w))
  }

  function RecallAtK(retrieved: seq<Label>, relevant: set<Label>, k: int): real {
    if relevant == {} then 1.0 else Count(HitsOf(Head(retrieved, k), relevant)) as real / |relevant| as real
  }

  // ------------------------------------------------------------ the gain of a ranking

  /** The first `n` are hits. */
  predicate AllHits(hits: seq<bool>, n: nat) {
    n <= |hits| && forall i :: 0 <= i < n ==> hits[i]
  }

  /** The discounts of the ranks that are hits. */
  function Gain(hits: seq<bool>, w: Discount): real {
    if hits == [] then 0.0 else Gain(hits[..|hits| - 1], w) + if hits[|hits| - 1] then w(|hits| - 1) else 0.0
  }

  /** The discounts of the first `n` ranks. */
  function Ideal(n: nat, w: Discount): real {
    if n == 0 then 0.0 else Ideal(n - 1, w) + w(n - 1)
  }

  lemma {:induction false} DcgIsGain(hits: seq<bool>, w: Discount)
    ensures Dcg(Rels(hits), w) == Gain(hits, w)
  {
    if hits != [] {
      DcgIsGain(hits[..|hits| - 1], w);
      assert Rels(hits)[..|hits| - 1] == Rels(hits[..|hits| - 1]);
    }
  }

  lemma {:induction false} OnesAreIdeal(n: nat, w: Discount)
    ensures |Ones(n)| == n && Dcg(Ones(n), w) == Ideal(n, w)
  {
    if n > 0 {
      OnesAreIdeal(n - 1, w);
      assert Ones(n)[..n - 1] == Ones(n - 1);
    }
  }

  lemma {:induction false} MoreIsBetter(m: nat, n: nat, w: Discount)
    requires Falling(w) && m <= n
    ensures 0.0 <= Ideal(m, w) <= Ideal(n, w)
    ensures m < n ==> Ideal(m, w) < Ideal(n, w)
  {
    if m < n {
      MoreIsBetter(m, n - 1, w);
    } else if n > 0 {
      MoreIsBetter(m - 1, n - 1, w);
    }
  }

  /** With as many hits, no ranking gains more than the one that has them all first, and only that
      one gains as much. */
  lemma {:induction false} HitsFirstIsBest(hits: seq<bool>, w: Discount)
    requires Falling(w)
    ensures 0.0 <= Gain(hits, w) <= Ideal(Count(hits), w)
    ensures Gain(hits, w) == Ideal(Count(hits), w) <==> AllHits(hits, Count(hits))
  {
    if hits != [] {
      var n := |hits| - 1;
      var rest := hits[..n];
      HitsFirstIsBest(rest, w);
      CountAtMost(rest);
      if hits[n] {
        assert w(n) > 0.0 && (Count(rest) < n ==> w(Count(rest)) > w(n));
        LastHit(hits);
      } else {
        assert AllHits(rest, Count(rest)) <==> AllHits(hits, Count(rest));
      }
    }
  }

  lemma LastHit(hits: seq<bool>)
    requires hits != [] && hits[|hits| - 1]
    ensures Count(hits) == Count(hits[..|hits| - 1]) + 1
    ensures AllHits(hits, Count(hits)) <==> (AllHits(hits[..|hits| - 1], Count(hits) - 1) && Count(hits) == |hits|)
  {
    var n, rest := |hits| - 1, hits[..|hits| - 1];
    CountAtMost(rest);
    if AllHits(hits, Count(rest) + 1) {
      HitsBelow(hits, Count(rest));
      if Count(rest) < n {
        HitsBelow(hits, Count(rest) + 1);
        AllHitsCount(rest, Count(rest) + 1);
      }
    } else if AllHits(rest, n) {
      AddHit(hits);
    }
  }

  lemma HitsBelow(hits: seq<bool>, m: nat)
    requires m < |hits| && (AllHits(hits, m) || AllHits(hits, m + 1))
    ensures AllHits(hits[..|hits| - 1], m)
  {
  }

  lemma AddHit(hits: seq<bool>)
    requires hits != [] && hits[|hits| - 1] && AllHits(hits[..|hits| - 1], |hits| - 1)
    ensures AllHits(hits, |hits|)
  {
    assert forall i :: 0 <= i < |hits| - 1 ==> hits[..|hits| - 1][i] == hits[i];
  }

  lemma {:induction false} AllHitsCount(hits: seq<bool>, n: nat)
    requires AllHits(hits, n)
    ensures Count(hits) >= n
  {
    if |hits| > n {
      AllHitsCount(hits[..|hits| - 1], n);
    } else if n > 0 {
      AllHitsCount(hits[..n - 1], n - 1);
    }
  }

  // ------------------------------------------------------------ bounds

  /** At most `count` hits in the top `k`: the value lies in [0, 1], and it is 1 exactly when the
      ranking starts with as many hits as the ideal one. */
  lemma RelevanceBounds(relevance: seq<bool>, k: int, count: int, w: Discount)
    requires Falling(w) && 0 < count && 0 < k && Count(Head(relevance, k)) <= count
    ensures 0.0 <= NdcgByRelevance(relevance, k, count, w) <= 1.0
    ensures NdcgByRelevance(relevance, k, count, w) == 1.0 <==> AllHits(relevance, Min(count, k))
  {
    var top, ideal: nat := Head(relevance, k), Min(count, k);
    DcgIsGain(top, w);
    OnesAreIdeal(ideal, w);
    CountAtMost(top);
    GainBounds(top, ideal, w);
    TopAllHits(relevance, k, ideal);
    DivideBounds(Gain(top, w), Ideal(ideal, w));
  }

  lemma TopAllHits(relevance: seq<bool>, k: int, n: nat)
    requires n <= k
    ensures AllHits(relevance, n) <==> AllHits(Head(relevance, k), n)
  {
  }

  lemma GainBounds(top: seq<bool>, ideal: nat, w: Discount)
    requires Falling(w) && 0 < ideal && Count(top) <= ideal
    ensures 0.0 <= Gain(top, w) <= Ideal(ideal, w) && 0.0 < Ideal(ideal, w)
    ensures Gain(top, w) == Ideal(ideal, w) <==> AllHits(top, ideal)
  {
    HitsFirstIsBest(top, w);
    MoreIsBetter(Count(top), ideal, w);
    MoreIsBetter(0, ideal, w);
    if AllHits(top, ideal) {
      AllHitsCount(top, ideal);
    }
  }

  lemma DivideBounds(a: real, b: real)
    requires 0.0 <= a <= b && b > 0.0
    ensures 0.0 <= a / b <= 1.0 && (a / b == 1.0 <==> a == b)
  {
  }

  lemma {:induction false} DistinctHits(labels: seq<Label>, relevant: set<Label>)
    requires NoDuplicates(labels)
    ensures Count(HitsOf(labels, relevant)) == |set l | l in labels && l in relevant|
  {
    if labels != [] {
      var n := |labels| - 1;
      var rest := labels[..n];
      DistinctHits(rest, relevant);
      assert HitsOf(labels, relevant)[..n] == HitsOf(rest, relevant);
      assert forall l :: l in labels <==> l in rest || l == labels[n];
      var found := set l | l in rest && l in relevant;
      assert (set l | l in labels && l in relevant) == if labels[n] in relevant then found + {labels[n]} else found;
    }
  }

  lemma HitsFit(labels: seq<Label>, relevant: set<Label>)
    requires NoDuplicates(labels)
    ensures Count(HitsOf(labels, relevant)) <= |relevant|
    ensures Count(HitsOf(labels, relevant)) == |relevant| <==> forall l :: l in relevant ==> l in labels
  {
    DistinctHits(labels, relevant);
    var found := set l | l in labels && l in relevant;
    FoundAll(found, relevant);
  }

  lemma FoundAll(found: set<Label>, all: set<Label>)
    requires found <= all
    ensures |found| <= |all| && (|found| == |all| <==> found == all)
  {
    assert all == found + (all - found) && found !! (all - found);
  }

  lemma TopHits(labels: seq<Label>, relevant: set<Label>, k: int)
    ensures HitsOf(Head(labels, k), relevant) == Head(HitsOf(labels, relevant), k)
    ensures NoDuplicates(labels) ==> NoDuplicates(Head(labels, k))
  {
  }

  /** Labels without repetition: nDCG lies in [0, 1], and is 1 exactly when the first labels, as
      many as there are relevant ones or as `k` allows, are all relevant. */
  lemma NdcgBounds(retrieved: seq<Label>, relevant: set<Label>, k: int, w: Discount)
    requires Falling(w) && NoDuplicates(retrieved)
    ensures 0.0 <= NdcgAtK(retrieved, relevant, k, w) <= 1.0
    ensures NdcgAtK(retrieved, relevant, k, w) == 1.0 <==>
      if relevant == {} then retrieved == [] else 0 < k && AllHits(HitsOf(retrieved, relevant), Min(|relevant|, k))
  {
    if relevant != {} {
      if k > 0 {
        TopHits(retrieved, relevant, k);
        HitsFit(Head(retrieved, k), relevant);
        RelevanceBounds(HitsOf(retrieved, relevant), k, |relevant|, w);
      } else {
        assert Ones(Min(|relevant|, k)) == [];
      }
    }
  }

  /** The two forms of the metric differ just where nothing is relevant and something, none of it
      a hit, was retrieved. */
  lemma FormsAgreeIff(retrieved: seq<Label>, relevant: set<Label>, k: int, w: Discount)
    ensures (NdcgAtK(retrieved, relevant, k, w) == NdcgByRelevance(HitsOf(retrieved, relevant), k, |relevant|, w))
      <==> (relevant != {} || retrieved == [])
  {
    TopHits(retrieved, relevant, k);
  }

  /** A repeated label breaks the bound. */
  lemma RepeatedLabelExceedsOne(twice: Label, w: Discount)
    requires Falling(w)
    ensures NdcgAtK([twice, twice], {twice}, 2, w) > 1.0
  {
    var hits := HitsOf([twice, twice], {twice});
    DcgIsGain(hits, w);
    OnesAreIdeal(1, w);
    assert hits[..1][..0] == [] && Gain(hits[..1], w) == w(0) && Gain(hits, w) == w(0) + w(1);
    assert Ideal(0, w) == 0.0 && Ideal(1, w) == w(0);
    assert |{twice}| == 1 && Head([twice, twice], 2) == [twice, twice];
    assert NdcgAtK([twice, twice], {twice}, 2, w) == (w(0) + w(1)) / w(0);
    DivideMore(w(0), w(0) + w(1), w(0));
    DivideBounds(w(0), w(0));
  }

  // ------------------------------------------------------------ swaps

  lemma {:induction false} GainUpdate(hits: seq<bool>, w: Discount, i: nat, hit: bool)
    requires i < |hits| && hits[i] != hit
    ensures Gain(hits[i := hit], w) == if hit then Gain(hits, w) + w(i) else Gain(hits, w) - w(i)
  {
    var n := |hits| - 1;
    if i < n {
      GainUpdate(hits[..n], w, i, hit);
      assert hits[i := hit][..n] == hits[..n][i := hit];
    } else {
      assert hits[i := hit][..n] == hits[..n];
    }
  }

  /** A relevant label that changes places with an irrelevant one above it, both within the top
      `k`, makes the value strictly greater. */
  lemma SwapRaises(retrieved: seq<Label>, relevant: set<Label>, k: int, w: Discount, i: nat, j: nat)
    requires Falling(w) && i < j < |retrieved| && j < k
    requires retrieved[i] !in relevant && retrieved[j] in relevant
    ensures NdcgAtK(retrieved[i := retrieved[j]][j := retrieved[i]], relevant, k, w) > NdcgAtK(retrieved, relevant, k, w)
  {
    var swapped := retrieved[i := retrieved[j]][j := retrieved[i]];
    var hits := HitsOf(Head(retrieved, k), relevant);
    assert HitsOf(Head(swapped, k), relevant) == hits[i := true][j := false];
    SwapGains(hits, w, i, j);
    DcgIsGain(hits, w);
    DcgIsGain(hits[i := true][j := false], w);
    assert relevant != {};
    var ideal: nat := Min(|relevant|, k);
    OnesAreIdeal(ideal, w);
    MoreIsBetter(0, ideal, w);
    DivideMore(Gain(hits, w), Gain(hits[i := true][j := false], w), Ideal(ideal, w));
  }

  lemma SwapGains(hits: seq<bool>, w: Discount, i: nat, j: nat)
    requires Falling(w) && i < j < |hits| && !hits[i] && hits[j]
    ensures Gain(hits[i := true][j := false], w) > Gain(hits, w)
  {
    GainUpdate(hits, w, i, true);
    GainUpdate(hits[i := true], w, j, false);
    assert w(i) > w(j);
  }

  lemma DivideMore(a: real, b: real, c: real)
    requires a < b && c > 0.0
    ensures a / c < b / c
  {
  }

  // ------------------------------------------------------------ recall

  /** Labels without repetition: recall lies in [0, 1], and is 1 exactly when nothing is missing. */
  lemma RecallBounds(retrieved: seq<Label>, relevant: set<Label>, k: int)
    requires NoDuplicates(retrieved)
    ensures 0.0 <= RecallAtK(retrieved, relevant, k) <= 1.0
    ensures RecallAtK(retrieved, relevant, k) == 1.0 <==> forall l :: l in relevant ==> l in Head(retrieved, k)
  {
    TopHits(retrieved, relevant, k);
    if relevant != {} {
      HitsFit(Head(retrieved, k), relevant);
      DivideBounds(Count(HitsOf(Head(retrieved, k), relevant)) as real, |relevant| as real);
    }
  }

  // ------------------------------------------------------------ the labels of the harness

  datatype Candidate = Candidate(file: string, chunk: string)

  /** The expected file a candidate hits, or else its own; `match_` and `lower` are abstract. */
  function LabelOf(c: Candidate, match_: string -> Option<Label>, lower: string -> string): Label {
    var hit := match_(c.file);
    if hit.Some? && hit.value != "" then hit.value else lower(if c.file != "" then c.file else c.chunk)
  }

  /** Each label once, where it first stands. */
  function FirstOnly(labels: seq<Label>): seq<Label> {
    if labels == [] then []
    else
      var n := |labels| - 1;
      if labels[n] in labels[..n] then FirstOnly(labels[..n]) else FirstOnly(labels[..n]) + [labels[n]]
  }

  method RetrievedLabels(candidates: seq<Candidate>, match_: string -> Option<Label>, lower: string -> string)
    returns (unique: seq<Label>)
    ensures NoDuplicates(unique)
    ensures forall c :: c in candidates ==>
      if match_(c.file).Some? && match_(c.file).value != "" then match_(c.file).value in unique
      else if c.file != "" then lower(c.file) in unique
      else lower(c.chunk) in unique
    ensures unique == FirstOnly(seq(|candidates|, i requires 0 <= i < |candidates| => LabelOf(candidates[i], match_, lower)))
  {
    ghost var all := seq(|candidates|, i requires 0 <= i < |candidates| => LabelOf(candidates[i], match_, lower));
    var labels: seq<Label> := [];
    var n := 0;
    while n < |candidates|
      invariant 0 <= n <= |candidates| && labels == all[..n]
    {
      labels := labels + [LabelOf(candidates[n], match_, lower)];
      n := n + 1;
    }
    assert labels == all;
    FirstOnlyDistinct(labels);
    unique := FirstOnly(labels);
    forall c | c in candidates
      ensures LabelOf(c, match_, lower) in unique
    {
      var i :| 0 <= i < |candidates| && candidates[i] == c;
      assert labels[i] == LabelOf(c, match_, lower);
    }
  }

  lemma {:induction false} FirstOnlyDistinct(labels: seq<Label>)
    ensures NoDuplicates(FirstOnly(labels))
    ensures forall l :: l in FirstOnly(labels) <==> l in labels
  {
    if labels != [] {
      var n := |labels| - 1;
      FirstOnlyDistinct(labels[..n]);
      assert forall l :: l in labels <==> l in labels[..n] || l == labels[n];
    }
  }

  predicate FirstAt(labels: seq<Label>, l: Label, n: nat) {
    n < |labels| && labels[n] == l && l !in labels[..n]
  }

  lemma FirstBefore(labels: seq<Label>, l: Label, n: nat)
    requires labels != [] && FirstAt(labels, l, n) && l in labels[..|labels| - 1]
    ensures FirstAt(labels[..|labels| - 1], l, n)
  {
    var k :| 0 <= k < |labels| - 1 && labels[..|labels| - 1][k] == l;
    assert forall i :: 0 <= i < n ==> labels[i] in labels[..n];
    assert labels[..|labels| - 1][..n] == labels[..n];
  }

  /** They stand in the order in which they first appear. */
  lemma {:induction false} FirstOnlyInOrder(labels: seq<Label>, a: nat, b: nat, m: nat, n: nat)
    requires a < b < |FirstOnly(labels)|
    requires FirstAt(labels, FirstOnly(labels)[a], m) && FirstAt(labels, FirstOnly(labels)[b], n)
    ensures m < n
  {
    var last := |labels| - 1;
    var rest, unique := labels[..last], FirstOnly(labels);
    FirstOnlyDistinct(rest);
    assert unique[a] in rest by {
      assert unique[a] == FirstOnly(rest)[a];
    }
    FirstBefore(labels, unique[a], m);
    if b < |FirstOnly(rest)| {
      assert unique[b] == FirstOnly(rest)[b] && unique[b] in rest;
      FirstBefore(labels, unique[b], n);
      FirstOnlyInOrder(rest, a, b, m, n);
    } else {
      assert unique[b] == labels[last] && labels[last] !in rest;
      NotEarlier(labels, unique[b], n);
    }
  }

  lemma NotEarlier(labels: seq<Label>, l: Label, n: nat)
    requires n < |labels| && labels[n] == l && l !in labels[..|labels| - 1]
    ensures n == |labels| - 1
  {
    assert forall i :: 0 <= i < |labels| - 1 ==> labels[i] in labels[..|labels| - 1];
  }
}
