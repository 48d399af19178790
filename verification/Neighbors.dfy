/** `_neighbor_chunk_ids`: the chunks one graph edge away, precomputed for each chunk. */
module Neighbors {
  import opened Stores
  import opened Lists

  type Id = string

  const NEIGHBOR_CHUNK_CAP := 8

  /** A place a node was seen at; nodes from prose may lack the lines. */
  datatype Place = Place(uri: string, first: Option<int>, last: Option<int>)
  datatype Node = Node(id: Id, refs: seq<Place>, properties: Place)
  datatype Piece = Piece(id: Id, first: int, last: int)
  datatype Edge = Edge(from: Id, to: Id, confidence: real)

  predicate AtLines(place: Place, uri: string, piece: Piece) {
    && place.uri == uri && place.first.Some? && place.last.Some?
    && place.first.value <= piece.last && place.last.value >= piece.first
  }

  /** The node has a span in `uri` that meets the lines of the piece. */
  predicate Meets(node: Node, uri: string, piece: Piece) {
    (exists place :: place in node.refs && AtLines(place, uri, piece)) || AtLines(node.properties, uri, piece)
  }

  /** For spans that run forwards: the node was seen at a place in the file that has a line of the piece. */
  lemma MeetsIff(node: Node, uri: string, piece: Piece)
    requires piece.first <= piece.last
    requires forall place :: (place in node.refs || place == node.properties) && place.first.Some? && place.last.Some? ==>
      place.first.value <= place.last.value
    ensures Meets(node, uri, piece) <==>
      exists place, line :: (place in node.refs || place == node.properties) && SeenAt(place, uri, line) && piece.first <= line <= piece.last
  {
    if Meets(node, uri, piece) {
      var place: Place :| (place in node.refs || place == node.properties) && AtLines(place, uri, piece);
      assert AtLines(place, uri, piece);
      var line := if place.first.value < piece.first then piece.first else place.first.value;
      assert SeenAt(place, uri, line);
    }
  }

  predicate SeenAt(place: Place, uri: string, line: int) {
    place.uri == uri && place.first.Some? && place.last.Some? && place.first.value <= line <= place.last.value
  }

  ghost predicate MeetsPiece(node: Node, pieces: seq<Piece>, uri: string, c: Id) {
    exists piece :: piece in pieces && piece.id == c && Meets(node, uri, piece)
  }

  /** A node of that id meets a piece of that id. */
  ghost predicate Anchored(nodes: seq<Node>, pieces: seq<Piece>, uri: string, n: Id, c: Id) {
    exists node :: node in nodes && node.id == n && MeetsPiece(node, pieces, uri, c)
  }

  type Links = map<Id, seq<Id>>

  function At(links: Links, n: Id): seq<Id> {
    if n in links then links[n] else []
  }

  ghost predicate LinksOk(links: Links, nodes: seq<Node>, pieces: seq<Piece>, uri: string) {
    forall n, c :: Anchored(nodes, pieces, uri, n, c) <==> c in At(links, n)
  }

  /** `links` is `before` and what `node` meets among the pieces. */
  ghost predicate NodeLinked(before: Links, links: Links, node: Node, pieces: seq<Piece>, uri: string) {
    forall n, c :: LinkedAt(before, links, node, pieces, uri, n, c)
  }

  ghost predicate LinkedAt(before: Links, links: Links, node: Node, pieces: seq<Piece>, uri: string, n: Id, c: Id) {
    c in At(links, n) <==> (c in At(before, n) || (n == node.id && MeetsPiece(node, pieces, uri, c)))
  }

  method NodeToChunks(nodes: seq<Node>, pieces: seq<Piece>, uri: string) returns (links: Links)
    ensures LinksOk(links, nodes, pieces, uri)
  {
    links := map[];
    var i := 0;
    while i < |nodes|
      invariant 0 <= i <= |nodes|
      invariant LinksOk(links, nodes[..i], pieces, uri)
    {
      var node := nodes[i];
      ghost var before := links;
      var j := 0;
      while j < |pieces|
        invariant 0 <= j <= |pieces|
        invariant NodeLinked(before, links, node, pieces[..j], uri)
      {
        var piece := pieces[j];
        OnePieceMore(before, links, node, pieces[..j], piece, uri);
        assert pieces[..j + 1] == pieces[..j] + [piece];
        if Meets(node, uri, piece) {
          links := links[node.id := At(links, node.id) + [piece.id]];
        }
        j := j + 1;
      }
      assert pieces[..j] == pieces;
      assert nodes[..i + 1] == nodes[..i] + [node];
      OneNodeMore(before, links, nodes[..i], node, pieces, uri);
      i := i + 1;
    }
    assert nodes[..i] == nodes;
  }

  lemma OnePieceMore(before: Links, links: Links, node: Node, pieces: seq<Piece>, piece: Piece, uri: string)
    requires NodeLinked(before, links, node, pieces, uri)
    ensures var more := if Meets(node, uri, piece) then links[node.id := At(links, node.id) + [piece.id]] else links;
      NodeLinked(before, more, node, pieces + [piece], uri)
  {
    var more := if Meets(node, uri, piece) then links[node.id := At(links, node.id) + [piece.id]] else links;
    var all := pieces + [piece];
    assert piece in all;
    forall n, c
      ensures LinkedAt(before, more, node, all, uri, n, c)
    {
      assert LinkedAt(before, links, node, pieces, uri, n, c);
      assert MeetsPiece(node, all, uri, c) <==> (MeetsPiece(node, pieces, uri, c) || (c == piece.id && Meets(node, uri, piece)));
    }
  }

  lemma OneNodeMore(before: Links, links: Links, nodes: seq<Node>, node: Node, pieces: seq<Piece>, uri: string)
    requires LinksOk(before, nodes, pieces, uri) && NodeLinked(before, links, node, pieces, uri)
    ensures LinksOk(links, nodes + [node], pieces, uri)
  {
    var all := nodes + [node];
    assert node in all;
    forall n, c
      ensures Anchored(all, pieces, uri, n, c) <==> c in At(links, n)
    {
      assert LinkedAt(before, links, node, pieces, uri, n, c);
      assert c in At(before, n) <==> Anchored(nodes, pieces, uri, n, c);
      assert Anchored(all, pieces, uri, n, c) <==> (Anchored(nodes, pieces, uri, n, c) || (n == node.id && MeetsPiece(node, pieces, uri, c)));
    }
  }

  // ------------------------------------------------------------ one chunk

  /** The end of the edge to go to from `c`: the edge's target is looked at first. */
  function FarEnd(links: Links, edge: Edge, c: Id): Option<Id> {
    if c in At(links, edge.from) then Some(edge.to)
    else if c in At(links, edge.to) then Some(edge.from)
    else None
  }

  predicate Contributes(links: Links, edge: Edge, c: Id, other: Id) {
    && other != c
    && FarEnd(links, edge, c).Some?
    && other in At(links, FarEnd(links, edge, c).value)
    && edge.confidence > -1.0
  }

  /** `best` maps the neighbours of `c` to the confidence of their surest edge. */
  ghost predicate BestOk(links: Links, edges: seq<Edge>, c: Id, best: map<Id, real>) {
    && (forall other :: other in best ==>
          exists edge :: edge in edges && Contributes(links, edge, c, other) && edge.confidence == best[other])
    && (forall edge, other :: edge in edges && Contributes(links, edge, c, other) ==>
          other in best && edge.confidence <= best[other])
  }

  method BestConfidences(links: Links, edges: seq<Edge>, c: Id) returns (best: map<Id, real>, order: seq<Id>)
    ensures BestOk(links, edges, c, best)
    ensures NoDuplicates(order) && forall o :: o in order <==> o in best
  {
    best, order := map[], [];
    var i := 0;
    while i < |edges|
      invariant 0 <= i <= |edges|
      invariant BestOk(links, edges[..i], c, best)
      invariant NoDuplicates(order) && forall o :: o in order <==> o in best
    {
      var edge := edges[i];
      var far := FarEnd(links, edge, c);
      ghost var before := best;
      if far.Some? {
        var others := At(links, far.value);
        var j := 0;
        while j < |others|
          invariant 0 <= j <= |others|
          invariant Raised(before, best, others[..j], c, edge.confidence)
          invariant NoDuplicates(order) && forall o :: o in order <==> o in best
        {
          var other := others[j];
          RaiseOneMore(before, best, others, j, c, edge.confidence);
          if other != c && edge.confidence > (if other in best then best[other] else -1.0) {
            if other !in best {
              order := order + [other];
            }
            best := best[other := edge.confidence];
          }
          j := j + 1;
        }
        assert others[..j] == others;
      }
      EdgeDone(links, edges, i, c, before, best);
      i := i + 1;
    }
    assert edges[..i] == edges;
  }

  /** Each of `done` but `c` was raised to `confidence` if that is more; the rest stays. */
  ghost predicate Raised(before: map<Id, real>, best: map<Id, real>, done: seq<Id>, c: Id, confidence: real) {
    forall o :: RaisedAt(before, best, done, c, o, confidence)
  }

  predicate RaisedAt(before: map<Id, real>, best: map<Id, real>, done: seq<Id>, c: Id, o: Id, confidence: real) {
    Lifted(before, best, o in done && o != c, o, confidence)
  }

  predicate Lifted(before: map<Id, real>, best: map<Id, real>, raise: bool, o: Id, confidence: real) {
    if raise && confidence > (if o in before then before[o] else -1.0)
    then o in best && best[o] == confidence
    else (o in best <==> o in before) && (o in best ==> best[o] == before[o])
  }

  predicate RaisedBy(links: Links, edge: Edge, c: Id, before: map<Id, real>, best: map<Id, real>, o: Id) {
    Lifted(before, best, Contributes(links, edge, c, o), o, edge.confidence)
  }

  lemma RaiseOneMore(before: map<Id, real>, best: map<Id, real>, others: seq<Id>, j: nat, c: Id, confidence: real)
    requires j < |others| && Raised(before, best, others[..j], c, confidence)
    ensures var other := others[j];
      var raise := other != c && confidence > (if other in best then best[other] else -1.0);
      Raised(before, if raise then best[other := confidence] else best, others[..j + 1], c, confidence)
  {
    var other, done := others[j], others[..j + 1];
    assert done == others[..j] + [other];
    var raise := other != c && confidence > (if other in best then best[other] else -1.0);
    var more := if raise then best[other := confidence] else best;
    forall o
      ensures RaisedAt(before, more, done, c, o, confidence)
    {
      assert RaisedAt(before, best, others[..j], c, o, confidence);
    }
  }

  lemma EdgeRaises(links: Links, edges: seq<Edge>, edge: Edge, c: Id, before: map<Id, real>, best: map<Id, real>, o: Id)
    requires BestOk(links, edges, c, before)
    requires var far := FarEnd(links, edge, c);
      if far.Some? then Raised(before, best, At(links, far.value), c, edge.confidence) else best == before
    ensures RaisedBy(links, edge, c, before, best, o)
  {
    var far := FarEnd(links, edge, c);
    if far.Some? {
      assert RaisedAt(before, best, At(links, far.value), c, o, edge.confidence);
      PositiveBest(links, edges, c, before, o);
    }
  }

  /** `o` owes its confidence to an edge looked at before, or to `edge`. */
  lemma EdgeWitness(links: Links, edges: seq<Edge>, edge: Edge, c: Id, before: map<Id, real>, best: map<Id, real>, o: Id)
      returns (e: Edge)
    requires BestOk(links, edges, c, before) && RaisedBy(links, edge, c, before, best, o) && o in best
    ensures e in edges + [edge] && Contributes(links, e, c, o) && e.confidence == best[o]
  {
    if o in before && best[o] == before[o] {
      e :| e in edges && Contributes(links, e, c, o) && e.confidence == before[o];
    } else {
      e := edge;
    }
  }

  lemma EdgeDone(links: Links, edges: seq<Edge>, i: nat, c: Id, before: map<Id, real>, best: map<Id, real>)
    requires i < |edges| && BestOk(links, edges[..i], c, before)
    requires var far := FarEnd(links, edges[i], c);
      if far.Some? then Raised(before, best, At(links, far.value), c, edges[i].confidence) else best == before
    ensures BestOk(links, edges[..i + 1], c, best)
  {
    var edge, done := edges[i], edges[..i + 1];
    assert done == edges[..i] + [edge];
    forall o | o in best
      ensures exists e :: e in done && Contributes(links, e, c, o) && e.confidence == best[o]
    {
      EdgeRaises(links, edges[..i], edge, c, before, best, o);
      var e := EdgeWitness(links, edges[..i], edge, c, before, best, o);
    }
    forall e, o | e in done && Contributes(links, e, c, o)
      ensures o in best && e.confidence <= best[o]
    {
      EdgeRaises(links, edges[..i], edge, c, before, best, o);
      assert e in edges[..i] || e == edge;
    }
  }

  lemma PositiveBest(links: Links, edges: seq<Edge>, c: Id, best: map<Id, real>, o: Id)
    requires BestOk(links, edges, c, best)
    ensures o in best ==> best[o] > -1.0
  {
  }

  // ------------------------------------------------------------ the list

  predicate TextLe(a: string, b: string) {
    a == [] || (b != [] && (a[0] < b[0] || (a[0] == b[0] && TextLe(a[1..], b[1..]))))
  }

  lemma {:induction false} TextOrder(a: string, b: string, c: string)
    ensures TextLe(a, b) || TextLe(b, a)
    ensures TextLe(a, b) && TextLe(b, a) ==> a == b
    ensures TextLe(a, b) && TextLe(b, c) ==> TextLe(a, c)
  {
    if a != [] && b != [] {
      TextOrder(a[1..], b[1..], if c != [] then c[1..] else c);
      assert a == [a[0]] + a[1..] && b == [b[0]] + b[1..];
    }
  }

  /** Texts compare by their first difference, and a text comes before what it begins. */
  lemma {:induction false} TextOrderIs(common: string, a: string, b: string)
    requires a == [] || b == [] || a[0] != b[0]
    ensures TextLe(common + a, common + b) <==> a == [] || (b != [] && a[0] < b[0])
    decreases |common|
  {
    if common == [] {
      assert common + a == a && common + b == b;
    } else {
      assert (common + a)[1..] == common[1..] + a && (common + b)[1..] == common[1..] + b;
      TextOrderIs(common[1..], a, b);
    }
  }

  function Surety(best: map<Id, real>, o: Id): real {
    if o in best then best[o] else -1.0
  }

  /** The key `(-confidence, id)`. */
  predicate Before(best: map<Id, real>, a: Id, b: Id) {
    Surety(best, a) > Surety(best, b) || (Surety(best, a) == Surety(best, b) && TextLe(a, b))
  }

  function Sooner(best: map<Id, real>): (Id, Id) -> bool {
    (a: Id, b: Id) => Before(best, a, b)
  }

  lemma SoonerIsTotal(best: map<Id, real>)
    ensures TotalPreorder(Sooner(best))
    ensures forall a, b :: Before(best, a, b) && Before(best, b, a) ==> a == b
  {
    forall a: Id, b: Id, c: Id
      ensures Before(best, a, b) || Before(best, b, a)
      ensures Before(best, a, b) && Before(best, b, a) ==> a == b
      ensures Before(best, a, b) && Before(best, b, c) ==> Before(best, a, c)
    {
      TextOrder(a, b, c);
    }
    var le := Sooner(best);
    assert forall a, b :: le(a, b) <==> Before(best, a, b);
  }

  /** The first eight of all neighbours, surest first, ties by id. */
  ghost predicate TopOf(best: map<Id, real>, listed: seq<Id>) {
    && NoDuplicates(listed)
    && (forall o :: o in listed ==> o in best)
    && |listed| == (if |best| < NEIGHBOR_CHUNK_CAP then |best| else NEIGHBOR_CHUNK_CAP)
    && (forall i, j :: 0 <= i < j < |listed| ==> Before(best, listed[i], listed[j]))
    && (forall o, p :: o in best && o !in listed && p in listed ==> Before(best, p, o) && !Before(best, o, p))
  }

  /** In figures: at most eight, all of them when there are no more, falling in confidence, and none left
      out that is surer than one listed; among equals the id that comes first. */
  lemma SurestAreListed(best: map<Id, real>, listed: seq<Id>)
    requires TopOf(best, listed)
    ensures |listed| <= 8 && (|listed| < 8 ==> forall o :: o in best <==> o in listed)
    ensures forall i, j :: 0 <= i < j < |listed| ==>
      best[listed[i]] > best[listed[j]] || (best[listed[i]] == best[listed[j]] && TextLe(listed[i], listed[j]))
    ensures forall o, p :: o in listed && p in best && p !in listed ==>
      best[o] > best[p] || (best[o] == best[p] && TextLe(o, p) && o != p)
  {
    ShortListIsAll(best, listed);
    forall o, p | o in listed && p in best && p !in listed
      ensures best[o] > best[p] || (best[o] == best[p] && TextLe(o, p) && o != p)
    {
      assert Before(best, o, p);
    }
    forall i, j | 0 <= i < j < |listed|
      ensures best[listed[i]] > best[listed[j]] || (best[listed[i]] == best[listed[j]] && TextLe(listed[i], listed[j]))
    {
      assert Before(best, listed[i], listed[j]) && listed[i] in best && listed[j] in best;
    }
  }

  lemma ShortListIsAll(best: map<Id, real>, listed: seq<Id>)
    requires NoDuplicates(listed) && (forall o :: o in listed ==> o in best)
    requires |listed| == |best| || |listed| == NEIGHBOR_CHUNK_CAP
    ensures |listed| < 8 ==> forall o :: o in best <==> o in listed
  {
    if |listed| < 8 {
      var found := set o | o in listed;
      SetLength(listed);
      assert found <= best.Keys && |best.Keys| == |found| + |best.Keys - found|;
      assert best.Keys - found == {};
    }
  }

  lemma DistinctLength(order: seq<Id>, best: map<Id, real>)
    requires NoDuplicates(order) && forall o :: o in order <==> o in best
    ensures |order| == |best|
  {
    SetLength(order);
    assert (set o | o in order) == best.Keys;
  }

  lemma {:induction false} SetLength(order: seq<Id>)
    requires NoDuplicates(order)
    ensures |set o | o in order| == |order|
  {
    if order != [] {
      var most, last := order[..|order| - 1], order[|order| - 1];
      SetLength(most);
      assert (set o | o in order) == (set o | o in most) + {last};
    }
  }

  lemma SortKeepsDistinct(order: seq<Id>, le: (Id, Id) -> bool)
    requires NoDuplicates(order)
    ensures NoDuplicates(Sort(order, le))
  {
    var sorted := Sort(order, le);
    SortKeeps(order, le);
    forall i, j | 0 <= i < j < |sorted|
      ensures sorted[i] != sorted[j]
    {
      if sorted[i] == sorted[j] {
        assert sorted == sorted[..i] + [sorted[i]] + sorted[i + 1..j] + [sorted[j]] + sorted[j + 1..];
        assert multiset(sorted)[sorted[i]] >= 2;
        AtMostOnce(order, sorted[i]);
      }
    }
  }

  lemma {:induction false} AtMostOnce(order: seq<Id>, o: Id)
    requires NoDuplicates(order)
    ensures multiset(order)[o] <= 1
  {
    if order != [] {
      var most, last := order[..|order| - 1], order[|order| - 1];
      AtMostOnce(most, o);
      assert order == most + [last];
      assert last !in most;
    }
  }

  method Ranked(best: map<Id, real>, order: seq<Id>) returns (listed: seq<Id>)
    requires NoDuplicates(order) && forall o :: o in order <==> o in best
    ensures TopOf(best, listed)
  {
    var sorted := Sort(order, Sooner(best));
    SortKeepsDistinct(order, Sooner(best));
    SortKeeps(order, Sooner(best));
    SameMembers(sorted, order);
    DistinctLength(order, best);
    SoonerIsTotal(best);
    SortSorts(order, Sooner(best));
    listed := sorted[..if |sorted| < NEIGHBOR_CHUNK_CAP then |sorted| else NEIGHBOR_CHUNK_CAP];
    forall o, p | o in best && o !in listed && p in listed
      ensures Before(best, p, o) && !Before(best, o, p)
    {
      var i :| 0 <= i < |sorted| && sorted[i] == o;
      var j :| 0 <= j < |listed| && listed[j] == p;
      assert i >= |listed| && sorted[j] == p;
      assert Sooner(best)(sorted[j], sorted[i]);
    }
    forall i, j | 0 <= i < j < |listed|
      ensures Before(best, listed[i], listed[j])
    {
      assert Sooner(best)(sorted[i], sorted[j]);
    }
  }

  /** The neighbours of `c` and the confidence of the surest edge to each. */
  ghost function BestOf(links: Links, edges: seq<Edge>, c: Id): map<Id, real> {
    if edges == [] then map[]
    else
      var edge := edges[|edges| - 1];
      Lift(BestOf(links, edges[..|edges| - 1], c), Reached(links, edge, c), c, edge.confidence)
  }

  function Reached(links: Links, edge: Edge, c: Id): seq<Id> {
    var far := FarEnd(links, edge, c);
    if far.Some? then At(links, far.value) else []
  }

  ghost function Lift(before: map<Id, real>, others: seq<Id>, c: Id, confidence: real): map<Id, real> {
    var raised := set o | o in others && o != c && confidence > Surety(before, o);
    map o | o in before.Keys + raised :: if o in raised then confidence else before[o]
  }

  lemma LiftRaises(before: map<Id, real>, others: seq<Id>, c: Id, confidence: real)
    ensures Raised(before, Lift(before, others, c, confidence), others, c, confidence)
    ensures others == [] ==> Lift(before, others, c, confidence) == before
  {
    if others == [] {
      assert Lift(before, others, c, confidence) == before;
    }
  }

  lemma {:induction false} BestOfIsBest(links: Links, edges: seq<Edge>, c: Id)
    ensures BestOk(links, edges, c, BestOf(links, edges, c))
  {
    if edges != [] {
      var n := |edges| - 1;
      var before := BestOf(links, edges[..n], c);
      BestOfIsBest(links, edges[..n], c);
      LiftRaises(before, Reached(links, edges[n], c), c, edges[n].confidence);
      assert edges[..n + 1] == edges;
      EdgeDone(links, edges, n, c, before, BestOf(links, edges, c));
    }
  }

  /** The graph leaves no choice. */
  lemma BestIsOne(links: Links, edges: seq<Edge>, c: Id, best: map<Id, real>)
    requires BestOk(links, edges, c, best)
    ensures best == BestOf(links, edges, c)
  {
    BestOfIsBest(links, edges, c);
    SameBest(links, edges, c, best, BestOf(links, edges, c));
  }

  lemma SameBest(links: Links, edges: seq<Edge>, c: Id, a: map<Id, real>, b: map<Id, real>)
    requires BestOk(links, edges, c, a) && BestOk(links, edges, c, b)
    ensures a == b
  {
    NotMore(links, edges, c, a, b);
    NotMore(links, edges, c, b, a);
    AtMostEachOther(a, b);
  }

  lemma AtMostEachOther(a: map<Id, real>, b: map<Id, real>)
    requires forall o :: o in a ==> o in b && a[o] <= b[o]
    requires forall o :: o in b ==> o in a && b[o] <= a[o]
    ensures a == b
  {
    assert a.Keys == b.Keys;
  }

  lemma NotMore(links: Links, edges: seq<Edge>, c: Id, a: map<Id, real>, b: map<Id, real>)
    requires BestOk(links, edges, c, a) && BestOk(links, edges, c, b)
    ensures forall o :: o in a ==> o in b && a[o] <= b[o]
  {
    forall o | o in a
      ensures o in b && a[o] <= b[o]
    {
      var edge :| edge in edges && Contributes(links, edge, c, o) && edge.confidence == a[o];
    }
  }

  predicate IsPiece(pieces: seq<Piece>, c: Id) {
    exists piece :: piece in pieces && piece.id == c
  }

  /** A chunk with neighbours has the top of them stored; nothing else is stored. */
  ghost predicate StoredFor(links: Links, edges: seq<Edge>, isPiece: bool, out: map<Id, seq<Id>>, c: Id) {
    && (c in out <==> isPiece && BestOf(links, edges, c) != map[])
    && (c in out ==> TopOf(BestOf(links, edges, c), out[c]))
  }

  ghost predicate Stored(links: Links, edges: seq<Edge>, pieces: seq<Piece>, out: map<Id, seq<Id>>) {
    forall c :: StoredFor(links, edges, IsPiece(pieces, c), out, c)
  }

  method NeighborsOf(links: Links, edges: seq<Edge>, c: Id) returns (best: map<Id, real>, listed: seq<Id>)
    ensures best == BestOf(links, edges, c) && TopOf(best, listed)
  {
    var order;
    best, order := BestConfidences(links, edges, c);
    BestIsOne(links, edges, c, best);
    listed := Ranked(best, order);
  }

  /** What is stored is the top of the neighbours, by the relation of nodes to the chunks they are
      anchored to. */
  method NeighborChunkIds(nodes: seq<Node>, pieces: seq<Piece>, edges: seq<Edge>, uri: string) returns (out: map<Id, seq<Id>>)
    ensures exists links :: LinksOk(links, nodes, pieces, uri) && Stored(links, edges, pieces, out)
  {
    var links := NodeToChunks(nodes, pieces, uri);
    out := map[];
    var i := 0;
    while i < |pieces|
      invariant 0 <= i <= |pieces|
      invariant Stored(links, edges, pieces[..i], out)
    {
      var piece := pieces[i];
      var best, listed := NeighborsOf(links, edges, piece.id);
      ghost var before := out;
      if best != map[] {
        out := out[piece.id := listed];
      }
      StoredMore(links, edges, pieces, i, before, out);
      i := i + 1;
    }
    assert pieces[..i] == pieces;
  }

  lemma StoredMore(links: Links, edges: seq<Edge>, pieces: seq<Piece>, i: nat, before: map<Id, seq<Id>>, out: map<Id, seq<Id>>)
    requires i < |pieces| && Stored(links, edges, pieces[..i], before)
    requires var c := pieces[i].id;
      if BestOf(links, edges, c) == map[] then out == before
      else c in out && out == before[c := out[c]] && TopOf(BestOf(links, edges, c), out[c])
    ensures Stored(links, edges, pieces[..i + 1], out)
  {
    assert pieces[..i + 1] == pieces[..i] + [pieces[i]];
    var done := pieces[..i + 1];
    assert pieces[i] in done;
    forall c
      ensures StoredFor(links, edges, IsPiece(done, c), out, c)
    {
      assert StoredFor(links, edges, IsPiece(pieces[..i], c), before, c);
      assert IsPiece(done, c) <==> IsPiece(pieces[..i], c) || c == pieces[i].id;
    }
  }

  // ------------------------------------------------------------ against the relation itself

  /** An edge joins the two chunks, whichever way round. */
  predicate Joins(links: Links, edge: Edge, c: Id, other: Id) {
    || (c in At(links, edge.from) && other in At(links, edge.to))
    || (c in At(links, edge.to) && other in At(links, edge.from))
  }

  /** What is listed is joined; an edge that touches the chunk with one end only contributes all
      that it joins; with both ends on the chunk, just what its target is anchored to. */
  lemma ContributesIff(links: Links, edge: Edge, c: Id, other: Id)
    requires other != c && edge.confidence > -1.0
    ensures Contributes(links, edge, c, other) <==>
      Joins(links, edge, c, other)
      && (c in At(links, edge.from) && c in At(links, edge.to) ==> other in At(links, edge.to))
  {
  }

  /** So an edge can list one chunk under another and not the other way round: exactly when its source
      is anchored to both and its target to one of them only, and then it is that one that is listed. */
  lemma OneSidedIff(links: Links, edge: Edge, c: Id, other: Id)
    requires edge.confidence > -1.0
    ensures Contributes(links, edge, other, c) && !Contributes(links, edge, c, other) <==>
      c in At(links, edge.from) && other in At(links, edge.from) && c in At(links, edge.to) && other !in At(links, edge.to)
  {
  }
}
