/** `merge_llm_graph_facts`: facts a language model states are merged into the extracted graph. */
module FactMerge {
  import opened Stores
  import opened Lists

  type Id = string

  datatype Ref = Ref(anchor: string, first: int, last: int)
  type Refs = map<string, Ref>

  /** `names` are the property values the node may be called by, its id among them. */
  datatype Node = Node(id: Id, names: seq<string>, uri: string, refs: Refs, confidence: real)

  /** The hash of product, ends, type and place is a constructor: different ids, different hashes. */
  datatype EdgeId = EdgeId(from: Id, kind: string, to: Id, place: string)
  datatype Edge = Edge(from: Id, kind: string, to: Id, refs: Refs, confidence: real, evidence: Option<string>)

  datatype Entity = Entity(name: string, tag: string, uri: Option<string>)
  datatype Fact = Fact(subject: Entity, relation: string, target: Entity, ref: Ref, confidence: real, evidence: string)

  /** The library functions on names, and the resource at hand. */
  datatype Naming = Naming(norm: string -> string, sid: (string, string, string) -> Id, home: string)

  datatype Graph = Graph(nodes: map<Id, Node>, aliases: map<string, Id>, edges: map<EdgeId, Edge>)

  // ------------------------------------------------------------ aliases

  /** `out` maps each name to the first node called so. */
  ghost predicate FirstCalled(nodes: seq<Node>, norm: string -> string, out: map<string, Id>) {
    && (forall key :: key in out ==> FirstIs(nodes, norm, key, out[key]))
    && (forall node, name :: node in nodes && name in node.names && name != "" ==> norm(name) in out)
  }

  predicate Called(node: Node, norm: string -> string, key: string) {
    exists name :: name in node.names && name != "" && norm(name) == key
  }

  predicate IsFirst(nodes: seq<Node>, norm: string -> string, key: string, i: nat)
    requires i < |nodes|
  {
    Called(nodes[i], norm, key) && forall j :: 0 <= j < i ==> !Called(nodes[j], norm, key)
  }

  method Aliases(nodes: seq<Node>, norm: string -> string) returns (out: map<string, Id>)
    ensures FirstCalled(nodes, norm, out)
  {
    out := map[];
    var n := 0;
    while n < |nodes|
      invariant 0 <= n <= |nodes|
      invariant FirstCalled(nodes[..n], norm, out)
    {
      var node := nodes[n];
      ghost var before := out;
      var k := 0;
      while k < |node.names|
        invariant 0 <= k <= |node.names|
        invariant Extended(before, out, node.names[..k], norm, node.id)
      {
        assert node.names[..k + 1] == node.names[..k] + [node.names[k]];
        if node.names[k] != "" && norm(node.names[k]) !in out {
          out := out[norm(node.names[k]) := node.id];
        }
        k := k + 1;
      }
      assert node.names[..k] == node.names;
      NodeCalled(nodes[..n], node, norm, before, out);
      assert nodes[..n + 1] == nodes[..n] + [node];
      n := n + 1;
    }
    assert nodes[..n] == nodes;
  }

  ghost predicate Extended(before: map<string, Id>, out: map<string, Id>, names: seq<string>, norm: string -> string, id: Id) {
    && (forall key :: key in before ==> key in out && out[key] == before[key])
    && (forall name :: name in names && name != "" ==> norm(name) in out)
    && (forall key :: key in out && key !in before ==>
          out[key] == id && exists name :: name in names && name != "" && norm(name) == key)
  }

  ghost predicate FirstIs(nodes: seq<Node>, norm: string -> string, key: string, id: Id) {
    exists i :: 0 <= i < |nodes| && IsFirst(nodes, norm, key, i) && nodes[i].id == id
  }

  lemma FirstStays(nodes: seq<Node>, next: Node, norm: string -> string, key: string, id: Id)
    requires FirstIs(nodes, norm, key, id)
    ensures FirstIs(nodes + [next], norm, key, id)
  {
    var i :| 0 <= i < |nodes| && IsFirst(nodes, norm, key, i) && nodes[i].id == id;
    assert IsFirst(nodes + [next], norm, key, i);
  }

  lemma NextIsFirst(nodes: seq<Node>, next: Node, norm: string -> string, key: string, before: map<string, Id>)
    requires FirstCalled(nodes, norm, before) && key !in before && Called(next, norm, key)
    ensures FirstIs(nodes + [next], norm, key, next.id)
  {
    forall j | 0 <= j < |nodes|
      ensures !Called(nodes[j], norm, key)
    {
      assert nodes[j] in nodes;
    }
    assert IsFirst(nodes + [next], norm, key, |nodes|);
  }

  lemma NodeCalled(nodes: seq<Node>, next: Node, norm: string -> string, before: map<string, Id>, out: map<string, Id>)
    requires FirstCalled(nodes, norm, before)
    requires Extended(before, out, next.names, norm, next.id)
    ensures FirstCalled(nodes + [next], norm, out)
  {
    forall key | key in out
      ensures FirstIs(nodes + [next], norm, key, out[key])
    {
      if key in before {
        FirstStays(nodes, next, norm, key, before[key]);
      } else {
        NextIsFirst(nodes, next, norm, key, before);
      }
    }
  }

  lemma AliasesAreNodes(nodes: seq<Node>, norm: string -> string, out: map<string, Id>)
    requires FirstCalled(nodes, norm, out)
    ensures forall key :: key in out ==> exists node :: node in nodes && node.id == out[key]
  {
    forall key | key in out
      ensures exists node :: node in nodes && node.id == out[key]
    {
      assert FirstIs(nodes, norm, key, out[key]);
      var i :| 0 <= i < |nodes| && IsFirst(nodes, norm, key, i) && nodes[i].id == out[key];
      assert nodes[i] in nodes;
    }
  }

  // ------------------------------------------------------------ the entity of a fact

  function Max(a: real, b: real): real {
    if a >= b then a else b
  }

  function MergeRefs(left: Refs, ref: Ref): Refs {
    left[ref.anchor := ref]
  }

  function UriOf(entity: Entity, naming: Naming): string {
    if entity.uri.Some? && entity.uri.value != "" then entity.uri.value else naming.home
  }

  /** A node tied to another file does not take the fact in. */
  predicate AliasCompatible(node: Node, uri: string) {
    node.uri == "" || node.uri == uri
  }

  predicate Absorbs(g: Graph, naming: Naming, entity: Entity) {
    var key := naming.norm(entity.name);
    && key in g.aliases && g.aliases[key] != "" && g.aliases[key] in g.nodes
    && AliasCompatible(g.nodes[g.aliases[key]], UriOf(entity, naming))
  }

  function NodeFor(g: Graph, naming: Naming, entity: Entity): Id {
    if Absorbs(g, naming, entity) then g.aliases[naming.norm(entity.name)]
    else naming.sid(entity.tag, UriOf(entity, naming), entity.name)
  }

  function Minted(id: Id, entity: Entity, naming: Naming, ref: Ref): Node {
    Node(id, [id, entity.name, UriOf(entity, naming)], UriOf(entity, naming), map[ref.anchor := ref], 0.8)
  }

  function Resolved(g: Graph, naming: Naming, entity: Entity, ref: Ref): Graph {
    var id := NodeFor(g, naming, entity);
    if Absorbs(g, naming, entity) then
      g.(nodes := g.nodes[id := g.nodes[id].(refs := MergeRefs(g.nodes[id].refs, ref), confidence := Max(g.nodes[id].confidence, 0.8))])
    else
      g.(nodes := g.nodes[id := Minted(id, entity, naming, ref)], aliases := g.aliases[naming.norm(entity.name) := id])
  }

  /** Every alias and every end of an edge is a node, and every edge stands under its own hash. */
  ghost predicate Formed(g: Graph) {
    && (forall key :: key in g.aliases ==> g.aliases[key] in g.nodes)
    && (forall id :: id in g.edges ==> EdgeFormed(g, id))
  }

  predicate EdgeFormed(g: Graph, id: EdgeId)
    requires id in g.edges
  {
    var e := g.edges[id];
    e.from in g.nodes && e.to in g.nodes && e.from == id.from && e.kind == id.kind && e.to == id.to
  }

  lemma ResolvedKeeps(g: Graph, naming: Naming, entity: Entity, ref: Ref)
    requires Formed(g)
    ensures Formed(Resolved(g, naming, entity, ref)) && Grows(g, Resolved(g, naming, entity, ref))
    ensures NodeFor(g, naming, entity) in Resolved(g, naming, entity, ref).nodes
  {
    var r := Resolved(g, naming, entity, ref);
    forall id | id in r.edges
      ensures EdgeFormed(r, id)
    {
      assert EdgeFormed(g, id);
    }
  }

  /** A node is minted over one that exists when its alias is taken by another file's node; just
      then can its confidence fall. */
  lemma NodeConfidenceFallsIff(g: Graph, naming: Naming, entity: Entity, ref: Ref, id: Id)
    requires id in g.nodes
    ensures Resolved(g, naming, entity, ref).nodes[id].confidence < g.nodes[id].confidence
      <==> (!Absorbs(g, naming, entity) && id == NodeFor(g, naming, entity) && g.nodes[id].confidence > 0.8)
  {
  }

  /** And just then can it lose references: all but one to the place of the fact. */
  lemma NodeReferencesGoIff(g: Graph, naming: Naming, entity: Entity, ref: Ref, id: Id)
    requires id in g.nodes
    ensures !(g.nodes[id].refs.Keys <= Resolved(g, naming, entity, ref).nodes[id].refs.Keys)
      <==> (!Absorbs(g, naming, entity) && id == NodeFor(g, naming, entity) && exists a :: a in g.nodes[id].refs && a != ref.anchor)
  {
    var after := Resolved(g, naming, entity, ref).nodes[id].refs;
    if !Absorbs(g, naming, entity) && id == NodeFor(g, naming, entity) {
      assert after.Keys == {ref.anchor};
    }
  }

  /** The file an entity belongs to: its own, or else the resource at hand. */
  lemma EntityFile(entity: Entity, naming: Naming)
    ensures entity.uri == None || entity.uri == Some("") ==> UriOf(entity, naming) == naming.home
    ensures entity.uri.Some? && entity.uri.value != "" ==> UriOf(entity, naming) == entity.uri.value
  {
  }

  /** Which node an entity meets, and what becomes of the nodes: the node its name stands for takes the
      reference when it is tied to no file or to the entity's own; otherwise a node of its own is made,
      and the name stands for that from then on. No other node changes. */
  lemma EntityMeets(g: Graph, naming: Naming, entity: Entity, ref: Ref)
    requires Formed(g)
    ensures var key, uri, r := naming.norm(entity.name), UriOf(entity, naming), Resolved(g, naming, entity, ref);
      var known := key in g.aliases && g.aliases[key] != "" && g.nodes[g.aliases[key]].uri in ["", uri];
      var id := NodeFor(g, naming, entity);
      && id == (if known then g.aliases[key] else naming.sid(entity.tag, uri, entity.name))
      && r.edges == g.edges && r.nodes.Keys == g.nodes.Keys + {id}
      && (forall other :: other in g.nodes && other != id ==> r.nodes[other] == g.nodes[other])
      && (if known
          then r.aliases == g.aliases
               && r.nodes[id] == g.nodes[id].(refs := r.nodes[id].refs, confidence := r.nodes[id].confidence)
               && r.nodes[id].refs.Keys == g.nodes[id].refs.Keys + {ref.anchor} && r.nodes[id].refs[ref.anchor] == ref
               && (forall a :: a in g.nodes[id].refs && a != ref.anchor ==> r.nodes[id].refs[a] == g.nodes[id].refs[a])
               && r.nodes[id].confidence >= 0.8 && r.nodes[id].confidence >= g.nodes[id].confidence
               && r.nodes[id].confidence in [0.8, g.nodes[id].confidence]
          else r.aliases == g.aliases[key := id]
               && r.nodes[id].id == id && entity.name in r.nodes[id].names && r.nodes[id].uri == uri
               && r.nodes[id].refs == map[ref.anchor := ref] && r.nodes[id].confidence == 0.8)
  {
  }

  // ------------------------------------------------------------ one fact

  predicate Matches(e: Edge, from: Id, kind: string, to: Id) {
    e.from == from && e.kind == kind && e.to == to
  }

  function Reinforced(e: Edge, fact: Fact): Edge {
    e.(refs := MergeRefs(e.refs, fact.ref),
       confidence := Max(e.confidence, fact.confidence),
       evidence := if e.evidence.Some? then e.evidence else Some(fact.evidence))
  }

  function NewEdge(fact: Fact, from: Id, to: Id): Edge {
    Edge(from, fact.relation, to, map[fact.ref.anchor := fact.ref], fact.confidence, Some(fact.evidence))
  }

  /** `after` follows from `before` by one fact; which of several equal edges it strengthens is open. */
  ghost predicate MergedFact(before: Graph, after: Graph, naming: Naming, fact: Fact) {
    var one := Resolved(before, naming, fact.subject, fact.ref);
    var two := Resolved(one, naming, fact.target, fact.ref);
    var from, to := NodeFor(before, naming, fact.subject), NodeFor(one, naming, fact.target);
    && after.nodes == two.nodes && after.aliases == two.aliases
    && if exists id :: id in before.edges && Matches(before.edges[id], from, fact.relation, to)
       then exists id :: id in before.edges && Matches(before.edges[id], from, fact.relation, to)
              && after.edges == before.edges[id := Reinforced(before.edges[id], fact)]
       else after.edges == before.edges[EdgeId(from, fact.relation, to, fact.ref.anchor) := NewEdge(fact, from, to)]
  }

  /** Nothing goes: ids stay, and an edge keeps its ends, references, evidence and confidence. */
  ghost predicate Grows(before: Graph, after: Graph) {
    && before.nodes.Keys <= after.nodes.Keys
    && (forall id :: id in before.edges ==> id in after.edges && EdgeGrows(before.edges[id], after.edges[id]))
  }

  ghost predicate EdgeGrows(before: Edge, after: Edge) {
    && after.from == before.from && after.kind == before.kind && after.to == before.to
    && before.refs.Keys <= after.refs.Keys
    && before.confidence <= after.confidence
    && (before.evidence.Some? ==> after.evidence == before.evidence)
  }

  lemma GrowsTransitive(a: Graph, b: Graph, c: Graph)
    requires Grows(a, b) && Grows(b, c)
    ensures Grows(a, c)
  {
    forall id | id in a.edges
      ensures id in c.edges && EdgeGrows(a.edges[id], c.edges[id])
    {
      assert EdgeGrows(a.edges[id], b.edges[id]) && EdgeGrows(b.edges[id], c.edges[id]);
    }
  }

  predicate Twins(a: Edge, b: Edge) {
    a.from == b.from && a.kind == b.kind && a.to == b.to
  }

  /** Two edges with the same ends and type are both edges of `base`. */
  ghost predicate NoNewTwins(base: Graph, g: Graph) {
    forall a, b :: a in g.edges && b in g.edges && a != b && Twins(g.edges[a], g.edges[b]) ==> (a in base.edges && b in base.edges)
  }

  /** An edge carries the fact: its type, its place, at least its confidence. */
  predicate Carries(e: Edge, fact: Fact) {
    e.kind == fact.relation && fact.ref.anchor in e.refs && e.confidence >= fact.confidence
  }

  /** One edge is put in, over itself or new; the nodes stay. */
  lemma EdgePut(g: Graph, after: Graph, id: EdgeId, e: Edge, fact: Fact)
    requires Formed(g) && after == g.(edges := g.edges[id := e])
    requires e.from in g.nodes && e.to in g.nodes && e.from == id.from && e.kind == id.kind && e.to == id.to
    requires (id in g.edges ==> EdgeGrows(g.edges[id], e)) && Carries(e, fact)
    ensures Formed(after) && Grows(g, after) && Carries(after.edges[id], fact)
  {
    forall other | other in after.edges
      ensures EdgeFormed(after, other)
    {
      assert other in g.edges ==> EdgeFormed(g, other);
    }
    assert Carries(after.edges[id], fact);
  }

  lemma NoTwinsPut(base: Graph, g: Graph, after: Graph, id: EdgeId, e: Edge)
    requires NoNewTwins(base, g) && after.edges == g.edges[id := e]
    requires if id in g.edges then Twins(g.edges[id], e) else forall other :: other in g.edges ==> !Twins(g.edges[other], e)
    ensures NoNewTwins(base, after)
  {
    forall a, b | a in after.edges && b in after.edges && a != b && Twins(after.edges[a], after.edges[b])
      ensures a in base.edges && b in base.edges
    {
      if id in g.edges {
        assert Twins(g.edges[a], g.edges[b]);
      } else {
        assert a != id && b != id;
      }
    }
  }

  /** The edge under `id` records the fact between the two nodes: one there is, or else a new one. */
  ghost predicate PutsEdge(g: Graph, after: Graph, from: Id, to: Id, fact: Fact, id: EdgeId) {
    if id in g.edges && Matches(g.edges[id], from, fact.relation, to)
    then after == g.(edges := g.edges[id := Reinforced(g.edges[id], fact)])
    else
      && (forall other :: other in g.edges ==> !Matches(g.edges[other], from, fact.relation, to))
      && id == EdgeId(from, fact.relation, to, fact.ref.anchor)
      && after == g.(edges := g.edges[id := NewEdge(fact, from, to)])
  }

  lemma PutKeeps(base: Graph, g: Graph, after: Graph, from: Id, to: Id, fact: Fact, id: EdgeId)
    requires Formed(g) && from in g.nodes && to in g.nodes && PutsEdge(g, after, from, to, fact, id)
    ensures Formed(after) && Grows(g, after) && Carries(after.edges[id], fact)
    ensures NoNewTwins(base, g) ==> NoNewTwins(base, after)
  {
    if id in g.edges {
      assert EdgeFormed(g, id);
    }
    EdgePut(g, after, id, after.edges[id], fact);
    if NoNewTwins(base, g) {
      NoTwinsPut(base, g, after, id, after.edges[id]);
    }
  }

  lemma FactPuts(before: Graph, after: Graph, naming: Naming, fact: Fact) returns (id: EdgeId)
    requires MergedFact(before, after, naming, fact)
    ensures var one := Resolved(before, naming, fact.subject, fact.ref);
      var two := Resolved(one, naming, fact.target, fact.ref);
      PutsEdge(two, after, NodeFor(before, naming, fact.subject), NodeFor(one, naming, fact.target), fact, id)
  {
    var one := Resolved(before, naming, fact.subject, fact.ref);
    var two := Resolved(one, naming, fact.target, fact.ref);
    var from, to := NodeFor(before, naming, fact.subject), NodeFor(one, naming, fact.target);
    assert two.edges == before.edges;
    if hit :| hit in before.edges && Matches(before.edges[hit], from, fact.relation, to) {
      id :| id in before.edges && Matches(before.edges[id], from, fact.relation, to)
        && after.edges == before.edges[id := Reinforced(before.edges[id], fact)];
    } else {
      id := EdgeId(from, fact.relation, to, fact.ref.anchor);
    }
  }

  // ------------------------------------------------------------ nothing is made up

  predicate Mentions(fact: Fact, entity: Entity) {
    entity == fact.subject || entity == fact.target
  }

  /** The node the name stood for at first, or the one an entity of that name gets of its own. */
  ghost predicate CalledLike(base: Graph, facts: seq<Fact>, naming: Naming, key: string, id: Id) {
    || (key in base.aliases && base.aliases[key] == id)
    || (exists fact, entity :: fact in facts && Mentions(fact, entity) && naming.norm(entity.name) == key
          && id == naming.sid(entity.tag, UriOf(entity, naming), entity.name))
  }

  ghost predicate AliasesSound(base: Graph, facts: seq<Fact>, naming: Naming, g: Graph) {
    forall key :: key in g.aliases ==> CalledLike(base, facts, naming, key, g.aliases[key])
  }

  ghost predicate RefFrom(facts: seq<Fact>, ref: Ref) {
    exists fact :: fact in facts && fact.ref == ref
  }

  /** References come from the base or from a fact, and so does the confidence. */
  ghost predicate NodeSound(base: Graph, facts: seq<Fact>, id: Id, node: Node) {
    && (forall a :: a in node.refs ==>
          (id in base.nodes && a in base.nodes[id].refs && node.refs[a] == base.nodes[id].refs[a])
          || (a == node.refs[a].anchor && RefFrom(facts, node.refs[a])))
    && (node.confidence == 0.8 || (id in base.nodes && node.confidence == base.nodes[id].confidence))
  }

  ghost predicate NodesSound(base: Graph, facts: seq<Fact>, g: Graph) {
    forall id :: id in g.nodes ==> NodeSound(base, facts, id, g.nodes[id])
  }

  ghost predicate SaidBy(facts: seq<Fact>, kind: string, ref: Ref) {
    exists fact :: fact in facts && fact.relation == kind && fact.ref == ref
  }

  ghost predicate SureAs(facts: seq<Fact>, kind: string, confidence: real) {
    exists fact :: fact in facts && fact.relation == kind && fact.confidence == confidence
  }

  ghost predicate Quoted(facts: seq<Fact>, kind: string, evidence: string) {
    exists fact :: fact in facts && fact.relation == kind && fact.evidence == evidence
  }

  /** So with an edge, from facts of its type; what a fact put or strengthened has evidence. */
  ghost predicate EdgeSound(base: Graph, facts: seq<Fact>, id: EdgeId, e: Edge) {
    && (forall a :: a in e.refs ==>
          (id in base.edges && a in base.edges[id].refs && e.refs[a] == base.edges[id].refs[a])
          || (a == e.refs[a].anchor && SaidBy(facts, e.kind, e.refs[a])))
    && ((id in base.edges && e.confidence == base.edges[id].confidence) || SureAs(facts, e.kind, e.confidence))
    && ((id in base.edges && e.evidence == base.edges[id].evidence) || (e.evidence.Some? && Quoted(facts, e.kind, e.evidence.value)))
  }

  ghost predicate EdgesSound(base: Graph, facts: seq<Fact>, g: Graph) {
    forall id :: id in g.edges ==> EdgeSound(base, facts, id, g.edges[id])
  }

  ghost predicate AboutFile(facts: seq<Fact>, naming: Naming, uri: string) {
    exists fact, entity :: fact in facts && Mentions(fact, entity) && UriOf(entity, naming) == uri
  }

  ghost predicate OwnOf(facts: seq<Fact>, naming: Naming, id: Id) {
    exists fact, entity :: fact in facts && Mentions(fact, entity) && naming.sid(entity.tag, UriOf(entity, naming), entity.name) == id
  }

  /** A node that is tied to a file no entity belongs to, and is no entity's own, stays as it is. */
  ghost predicate OthersStay(base: Graph, facts: seq<Fact>, naming: Naming, g: Graph) {
    forall id :: id in base.nodes && base.nodes[id].uri != "" && !AboutFile(facts, naming, base.nodes[id].uri) && !OwnOf(facts, naming, id) ==>
      id in g.nodes && g.nodes[id] == base.nodes[id]
  }

  ghost predicate Sound(base: Graph, facts: seq<Fact>, naming: Naming, g: Graph) {
    && AliasesSound(base, facts, naming, g) && NodesSound(base, facts, g) && EdgesSound(base, facts, g)
    && OthersStay(base, facts, naming, g)
  }

  lemma StartIsSound(base: Graph, facts: seq<Fact>, naming: Naming)
    ensures Sound(base, facts, naming, base)
  {
  }

  lemma ResolvedIsSound(base: Graph, facts: seq<Fact>, naming: Naming, g: Graph, fact: Fact, entity: Entity)
    requires Formed(g) && Sound(base, facts, naming, g) && fact in facts && Mentions(fact, entity)
    ensures Sound(base, facts, naming, Resolved(g, naming, entity, fact.ref))
    ensures CalledLike(base, facts, naming, naming.norm(entity.name), NodeFor(g, naming, entity))
  {
    ResolvedAliasesSound(base, facts, naming, g, fact, entity);
    ResolvedNodesSound(base, facts, naming, g, fact, entity);
    ResolvedOthersStay(base, facts, naming, g, fact, entity);
  }

  lemma ResolvedAliasesSound(base: Graph, facts: seq<Fact>, naming: Naming, g: Graph, fact: Fact, entity: Entity)
    requires AliasesSound(base, facts, naming, g) && fact in facts && Mentions(fact, entity)
    ensures AliasesSound(base, facts, naming, Resolved(g, naming, entity, fact.ref))
    ensures CalledLike(base, facts, naming, naming.norm(entity.name), NodeFor(g, naming, entity))
  {
  }

  lemma ResolvedOthersStay(base: Graph, facts: seq<Fact>, naming: Naming, g: Graph, fact: Fact, entity: Entity)
    requires OthersStay(base, facts, naming, g) && fact in facts && Mentions(fact, entity)
    ensures OthersStay(base, facts, naming, Resolved(g, naming, entity, fact.ref))
  {
    var r, id := Resolved(g, naming, entity, fact.ref), NodeFor(g, naming, entity);
    assert AboutFile(facts, naming, UriOf(entity, naming));
    assert !Absorbs(g, naming, entity) ==> OwnOf(facts, naming, id);
    forall other | other in base.nodes && base.nodes[other].uri != "" && !AboutFile(facts, naming, base.nodes[other].uri) && !OwnOf(facts, naming, other)
      ensures other in r.nodes && r.nodes[other] == base.nodes[other]
    {
      assert other in g.nodes && g.nodes[other] == base.nodes[other];
    }
  }

  lemma ResolvedNodesSound(base: Graph, facts: seq<Fact>, naming: Naming, g: Graph, fact: Fact, entity: Entity)
    requires NodesSound(base, facts, g) && fact in facts
    ensures NodesSound(base, facts, Resolved(g, naming, entity, fact.ref))
  {
    var r, id := Resolved(g, naming, entity, fact.ref), NodeFor(g, naming, entity);
    assert RefFrom(facts, fact.ref);
    forall other | other in r.nodes
      ensures NodeSound(base, facts, other, r.nodes[other])
    {
      assert other in g.nodes ==> NodeSound(base, facts, other, g.nodes[other]);
    }
  }

  lemma PutIsSound(base: Graph, facts: seq<Fact>, naming: Naming, g: Graph, after: Graph, from: Id, to: Id, fact: Fact, id: EdgeId)
    requires Sound(base, facts, naming, g) && fact in facts && PutsEdge(g, after, from, to, fact, id)
    ensures Sound(base, facts, naming, after)
  {
    assert SaidBy(facts, fact.relation, fact.ref) && SureAs(facts, fact.relation, fact.confidence) && Quoted(facts, fact.relation, fact.evidence);
    assert id in g.edges ==> EdgeSound(base, facts, id, g.edges[id]);
    assert EdgeSound(base, facts, id, after.edges[id]);
    forall other | other in after.edges
      ensures EdgeSound(base, facts, other, after.edges[other])
    {
      assert other != id ==> EdgeSound(base, facts, other, g.edges[other]);
    }
  }

  /** An edge carries the fact, from a node its subject may go by to one its target may go by. */
  ghost predicate RecordedAs(base: Graph, facts: seq<Fact>, naming: Naming, g: Graph, fact: Fact) {
    exists id :: id in g.edges && Carries(g.edges[id], fact)
      && CalledLike(base, facts, naming, naming.norm(fact.subject.name), g.edges[id].from)
      && CalledLike(base, facts, naming, naming.norm(fact.target.name), g.edges[id].to)
  }

  lemma RecordedAsStays(base: Graph, facts: seq<Fact>, naming: Naming, before: Graph, after: Graph, fact: Fact)
    requires RecordedAs(base, facts, naming, before, fact) && Grows(before, after)
    ensures RecordedAs(base, facts, naming, after, fact)
  {
    var id :| id in before.edges && Carries(before.edges[id], fact)
      && CalledLike(base, facts, naming, naming.norm(fact.subject.name), before.edges[id].from)
      && CalledLike(base, facts, naming, naming.norm(fact.target.name), before.edges[id].to);
    assert EdgeGrows(before.edges[id], after.edges[id]);
    assert Carries(after.edges[id], fact);
  }

  /** One fact makes nothing up, and is recorded between the right nodes. */
  lemma FactIsSound(base: Graph, facts: seq<Fact>, before: Graph, after: Graph, naming: Naming, fact: Fact)
    requires Formed(before) && Sound(base, facts, naming, before) && fact in facts && MergedFact(before, after, naming, fact)
    ensures Sound(base, facts, naming, after) && RecordedAs(base, facts, naming, after, fact)
  {
    var one := Resolved(before, naming, fact.subject, fact.ref);
    var two := Resolved(one, naming, fact.target, fact.ref);
    ResolvedKeeps(before, naming, fact.subject, fact.ref);
    ResolvedIsSound(base, facts, naming, before, fact, fact.subject);
    ResolvedIsSound(base, facts, naming, one, fact, fact.target);
    var id := FactPuts(before, after, naming, fact);
    PutIsSound(base, facts, naming, two, after, NodeFor(before, naming, fact.subject), NodeFor(one, naming, fact.target), fact, id);
    RecordedPut(base, facts, naming, two, after, NodeFor(before, naming, fact.subject), NodeFor(one, naming, fact.target), fact, id);
  }

  lemma RecordedPut(base: Graph, facts: seq<Fact>, naming: Naming, g: Graph, after: Graph, from: Id, to: Id, fact: Fact, id: EdgeId)
    requires PutsEdge(g, after, from, to, fact, id)
    requires CalledLike(base, facts, naming, naming.norm(fact.subject.name), from)
    requires CalledLike(base, facts, naming, naming.norm(fact.target.name), to)
    ensures RecordedAs(base, facts, naming, after, fact)
  {
    var e := after.edges[id];
    assert e.from == from && e.to == to && Carries(e, fact);
  }

  /** The one edge a fact writes: from the subject's node to the target's, of its type, with its reference
      under its place, the greater confidence, and the evidence it had or else the fact's. */
  lemma FactWrites(before: Graph, after: Graph, naming: Naming, fact: Fact) returns (id: EdgeId)
    requires MergedFact(before, after, naming, fact)
    ensures id in after.edges && after.edges.Keys == before.edges.Keys + {id}
    ensures forall other :: other in before.edges && other != id ==> after.edges[other] == before.edges[other]
    ensures after.edges[id].from == NodeFor(before, naming, fact.subject) && after.edges[id].kind == fact.relation
    ensures after.edges[id].to == NodeFor(Resolved(before, naming, fact.subject, fact.ref), naming, fact.target)
    ensures if id in before.edges && Twins(before.edges[id], after.edges[id])
      then Strengthened(before.edges[id], after.edges[id], fact) else Fresh(after.edges[id], fact)
  {
    id := FactPuts(before, after, naming, fact);
  }

  predicate Strengthened(was: Edge, e: Edge, fact: Fact) {
    && e.refs == was.refs[fact.ref.anchor := fact.ref]
    && e.confidence >= was.confidence && e.confidence >= fact.confidence && e.confidence in [was.confidence, fact.confidence]
    && e.evidence == if was.evidence.Some? then was.evidence else Some(fact.evidence)
  }

  predicate Fresh(e: Edge, fact: Fact) {
    e.refs == map[fact.ref.anchor := fact.ref] && e.confidence == fact.confidence && e.evidence == Some(fact.evidence)
  }

  /** What one fact keeps. */
  lemma FactKeeps(base: Graph, before: Graph, after: Graph, naming: Naming, fact: Fact)
    requires Formed(before) && MergedFact(before, after, naming, fact)
    ensures Formed(after) && Grows(before, after)
    ensures NoNewTwins(base, before) ==> NoNewTwins(base, after)
  {
    var one := Resolved(before, naming, fact.subject, fact.ref);
    var two := Resolved(one, naming, fact.target, fact.ref);
    var from, to := NodeFor(before, naming, fact.subject), NodeFor(one, naming, fact.target);
    ResolvedKeeps(before, naming, fact.subject, fact.ref);
    ResolvedKeeps(one, naming, fact.target, fact.ref);
    GrowsTransitive(before, one, two);
    var id := FactPuts(before, after, naming, fact);
    SameEdges(base, before, two);
    PutKeeps(base, two, after, from, to, fact, id);
    GrowsTransitive(before, two, after);
  }

  lemma SameEdges(base: Graph, a: Graph, b: Graph)
    requires a.edges == b.edges
    ensures NoNewTwins(base, a) ==> NoNewTwins(base, b)
  {
  }

  /** Nothing is made up and every fact is there. */
  ghost predicate TellsFacts(base: Graph, facts: seq<Fact>, naming: Naming, g: Graph) {
    Sound(base, facts, naming, g) && forall fact :: fact in facts ==> RecordedAs(base, facts, naming, g, fact)
  }

  ghost predicate AllRecorded(base: Graph, facts: seq<Fact>, naming: Naming, g: Graph, n: nat)
    requires n <= |facts|
  {
    forall i :: 0 <= i < n ==> RecordedAs(base, facts, naming, g, facts[i])
  }

  lemma AllRecordedMore(base: Graph, facts: seq<Fact>, naming: Naming, before: Graph, after: Graph, n: nat)
    requires n < |facts| && AllRecorded(base, facts, naming, before, n)
    requires Grows(before, after) && RecordedAs(base, facts, naming, after, facts[n])
    ensures AllRecorded(base, facts, naming, after, n + 1)
  {
    forall i | 0 <= i < n
      ensures RecordedAs(base, facts, naming, after, facts[i])
    {
      RecordedAsStays(base, facts, naming, before, after, facts[i]);
    }
  }

  // ------------------------------------------------------------ the merge itself

  class FactMerger {
    const naming: Naming
    var nodes: map<Id, Node>
    var aliases: map<string, Id>
    var edges: map<EdgeId, Edge>

    constructor (naming: Naming, nodes: map<Id, Node>, aliases: map<string, Id>, edges: map<EdgeId, Edge>)
      ensures this.naming == naming && Now() == Graph(nodes, aliases, edges)
    {
      this.naming, this.nodes, this.aliases, this.edges := naming, nodes, aliases, edges;
    }

    ghost function Now(): Graph
      reads this
    {
      Graph(nodes, aliases, edges)
    }

    method NodeIdForEntity(entity: Entity, ref: Ref) returns (id: Id)
      requires Formed(Now())
      modifies this
      ensures id == NodeFor(old(Now()), naming, entity)
      ensures Now() == Resolved(old(Now()), naming, entity, ref)
    {
      var key := naming.norm(entity.name);
      var uri := if entity.uri.Some? && entity.uri.value != "" then entity.uri.value else naming.home;
      if key in aliases && aliases[key] != "" && AliasCompatible(nodes[aliases[key]], uri) {
        id := aliases[key];
        var node := nodes[id];
        nodes := nodes[id := node.(refs := MergeRefs(node.refs, ref), confidence := Max(node.confidence, 0.8))];
        return;
      }
      id := naming.sid(entity.tag, uri, entity.name);
      nodes := nodes[id := Node(id, [id, entity.name, uri], uri, map[ref.anchor := ref], 0.8)];
      aliases := aliases[key := id];
    }

    method MergeFact(fact: Fact)
      requires Formed(Now())
      modifies this
      ensures MergedFact(old(Now()), Now(), naming, fact)
    {
      ResolvedKeeps(Now(), naming, fact.subject, fact.ref);
      var from := NodeIdForEntity(fact.subject, fact.ref);
      var to := NodeIdForEntity(fact.target, fact.ref);
      var found := set id | id in edges && Matches(edges[id], from, fact.relation, to);
      if found != {} {
        var id :| id in found;
        edges := edges[id := Reinforced(edges[id], fact)];
      } else {
        assert forall id :: id in edges && Matches(edges[id], from, fact.relation, to) ==> id in found;
        var id := EdgeId(from, fact.relation, to, fact.ref.anchor);
        edges := edges[id := NewEdge(fact, from, to)];
      }
    }

    /** From a closed graph the merge leaves a closed graph that has lost nothing, in which no fact
        made a second edge where there was one, and which carries every fact. */
    method MergeFacts(facts: seq<Fact>)
      requires Formed(Now())
      modifies this
      ensures Formed(Now()) && Grows(old(Now()), Now())
      ensures NoNewTwins(old(Now()), Now())
      ensures TellsFacts(old(Now()), facts, naming, Now())
    {
      ghost var base := Now();
      var n := 0;
      StartIsSound(base, facts, naming);
      while n < |facts|
        invariant 0 <= n <= |facts| && Sound(base, facts, naming, Now())
        invariant Formed(Now()) && Grows(base, Now()) && NoNewTwins(base, Now())
        invariant AllRecorded(base, facts, naming, Now(), n)
      {
        ghost var before := Now();
        MergeFact(facts[n]);
        FactKeeps(base, before, Now(), naming, facts[n]);
        GrowsTransitive(base, before, Now());
        FactIsSound(base, facts, before, Now(), naming, facts[n]);
        AllRecordedMore(base, facts, naming, before, Now(), n);
        n := n + 1;
      }
    }
  }

  /** The merge of a resource's graph, its aliases taken from its nodes. */
  method MergeLlmGraphFacts(naming: Naming, listed: seq<Node>, nodes: map<Id, Node>, edges: map<EdgeId, Edge>, facts: seq<Fact>)
    returns (merged: FactMerger)
    requires forall node :: node in listed <==> node.id in nodes && nodes[node.id] == node
    requires forall id :: id in edges ==> EdgeFormed(Graph(nodes, map[], edges), id)
    ensures Formed(merged.Now()) && NoNewTwins(Graph(nodes, map[], edges), merged.Now())
    ensures Grows(Graph(nodes, map[], edges), merged.Now())
    ensures exists aliases :: FirstCalled(listed, naming.norm, aliases) && TellsFacts(Graph(nodes, aliases, edges), facts, naming, merged.Now())
  {
    var aliases := Aliases(listed, naming.norm);
    AliasesAreNodes(listed, naming.norm, aliases);
    ghost var base := Graph(nodes, map[], edges);
    merged := new FactMerger(naming, nodes, aliases, edges);
    forall id | id in edges
      ensures EdgeFormed(merged.Now(), id)
    {
      assert EdgeFormed(base, id);
    }
    ghost var start := merged.Now();
    merged.MergeFacts(facts);
    assert start == Graph(nodes, aliases, edges);
    assert NoNewTwins(base, merged.Now()) by {
      assert NoNewTwins(start, merged.Now());
    }
  }

  // ------------------------------------------------------------ which facts get there

  function Admitted(floor: real): Fact -> bool {
    (f: Fact) => f.confidence >= floor && f.ref.first <= f.ref.last
  }

  /** The first facts that are sure enough and run forwards; one of them even when none is allowed. */
  method FilterFacts(facts: seq<Fact>, floor: real, limit: int) returns (out: seq<Fact>)
    ensures var all := Pick(facts, Admitted(floor));
      out == if |all| <= limit || |all| == 0 then all else if limit <= 1 then all[..1] else all[..limit]
  {
    out := [];
    var n := 0;
    while n < |facts|
      invariant 0 <= n <= |facts| && out == Pick(facts[..n], Admitted(floor))
      invariant out == [] || |out| < limit
    {
      var fact := facts[n];
      n := n + 1;
      PickOneMore(facts[..n - 1], fact, Admitted(floor));
      assert facts[..n] == facts[..n - 1] + [fact];
      if fact.confidence < floor || fact.ref.last < fact.ref.first {
        continue;
      }
      out := out + [fact];
      if |out| >= limit {
        PickAppend(facts[..n], facts[n..], Admitted(floor));
        assert facts[..n] + facts[n..] == facts;
        return;
      }
    }
    assert facts[..n] == facts;
  }
}
