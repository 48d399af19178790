/** `run_ingest`: reconcile, classify, process batches, remove. When nothing fails its writes are
    one of the interleavings `DeltaEqualsFullIff` speaks about; however it ends, they are a prefix of
    what is due for each resource. */
module Ingest {
  import opened Stores
  import opened Lists
  import opened Plans
  import opened Claims
  import opened ClaimLimits
  import opened DeltaRun
  import opened Backend
  import opened Runs

  datatype Item = Item(uri: Uri, content: Content, prior: Option<Row>)

  predicate Distinct(items: seq<Item>) {
    forall i, j :: 0 <= i < j < |items| ==> items[i].uri != items[j].uri
  }

  function Uris(items: seq<Item>): set<Uri> {
    set item | item in items :: item.uri
  }

  /** The chunks of an item whose vectors are written. */
  function Vector(cfg: Cfg, item: Item, version: nat): seq<Chunk> {
    VectorChunks(cfg, item.uri, item.content, Classify(item.prior, item.content, version), true)
  }

  function ItemPuts(cfg: Cfg, item: Item, version: nat, at: nat): seq<Write> {
    Puts(item.uri, Vector(cfg, item, version), Stamp(Sha(item.content), version), at)
  }

  function ItemPlan(cfg: Cfg, item: Item, version: nat, at: nat, lead: Collection): seq<Write> {
    IngestPlan(cfg, item.prior, item.uri, item.content, version, at, lead, Written)
  }

  function ItemMarks(cfg: Cfg, item: Item, version: nat): seq<Write> {
    if Vector(cfg, item, version) == [] then [] else [Mark(item.uri)]
  }

  function ItemRow(cfg: Cfg, item: Item, version: nat): Row {
    NewRow(cfg, item.uri, item.prior, item.content, version, Classify(item.prior, item.content, version), Written)
  }

  function ItemStale(cfg: Cfg, item: Item, version: nat): set<ChunkId> {
    (if item.prior.Some? then item.prior.value.ids else {}) - ItemRow(cfg, item, version).ids
  }

  function ItemTail(cfg: Cfg, item: Item, version: nat): seq<Write> {
    Drops(item.uri, ItemStale(cfg, item, version)) + [Record(item.uri, ItemRow(cfg, item, version))]
  }

  // ------------------------------------------------------------ projections of a batch

  lemma ForConcat(a: seq<Write>, b: seq<Write>, u: Uri)
    ensures For(a + b, u) == For(a, u) + For(b, u)
  {
    PickAppend(a, b, About(u));
  }

  /** Writes that all concern one resource. */
  lemma ForOwn(ws: seq<Write>, owner: Uri, u: Uri)
    requires forall w :: w in ws ==> Target(w) == owner
    ensures For(ws, u) == if u == owner then ws else []
  {
    if u == owner {
      PickAll(ws, About(u));
    } else {
      PickNone(ws, About(u));
    }
  }

  lemma ForOneMore(done: seq<Write>, more: seq<Write>, owner: Uri)
    requires forall w :: w in more ==> Target(w) == owner
    ensures forall u :: For(done + more, u) == For(done, u) + if u == owner then more else []
  {
    forall u
      ensures For(done + more, u) == For(done, u) + if u == owner then more else []
    {
      ForConcat(done, more, u);
      ForOwn(more, owner, u);
    }
  }

  /** What a batch sends for one resource is that resource's chunks, bucketed by the batch's lead. */
  lemma ForSendOrder(embedded: seq<Write>, u: Uri, chunks: seq<Chunk>, stamp: Stamp, at: nat, lead: Collection)
    requires For(embedded, u) == Puts(u, chunks, stamp, at) && (embedded != [] ==> lead == Home(embedded[0]))
    ensures For(SendOrder(embedded), u) == Puts(u, Bucketed(chunks, lead), stamp, at)
  {
    if embedded == [] {
      assert |Puts(u, chunks, stamp, at)| == |chunks| == 0;
    } else {
      PickTwice(embedded, SentTo(lead), About(u));
      PickTwice(embedded, SentTo(Other(lead)), About(u));
      ForConcat(Bucket(embedded, lead), Bucket(embedded, Other(lead)), u);
      BucketedPuts(u, chunks, stamp, at, lead);
    }
  }

  lemma ItemPlanParts(cfg: Cfg, item: Item, version: nat, at: nat, lead: Collection)
    ensures ItemPlan(cfg, item, version, at, lead) ==
      ItemMarks(cfg, item, version)
      + Puts(item.uri, Bucketed(Vector(cfg, item, version), lead), Stamp(Sha(item.content), version), at)
      + ItemTail(cfg, item, version)
  {
    BucketedSame(item.uri, Vector(cfg, item, version), lead);
  }

  lemma PlanPartsAreOwn(cfg: Cfg, item: Item, version: nat)
    ensures forall w :: w in ItemMarks(cfg, item, version) + ItemTail(cfg, item, version) ==> Target(w) == item.uri
  {
  }

  lemma PutsAreOwn(cfg: Cfg, item: Item, version: nat, at: nat)
    ensures forall w :: w in ItemPuts(cfg, item, version, at) ==> w.Put? && Target(w) == item.uri
  {
  }

  // ------------------------------------------------------------ one batch

  /** Whatever a batch has done of `part` for each of its items is a prefix of it, and nothing else
      was done; with `whole`, all of it was. */
  ghost predicate DoneOf(items: seq<Item>, part: Item -> seq<Write>, done: seq<Write>, whole: bool) {
    && (forall u :: u !in Uris(items) ==> For(done, u) == [])
    && (forall item :: item in items ==> For(done, item.uri) <= part(item))
    && (whole ==> forall item :: item in items ==> For(done, item.uri) == part(item))
  }

  lemma DoneOfNone(part: Item -> seq<Write>)
    ensures DoneOf([], part, [], true)
  {
  }

  lemma DoneOfMore(items: seq<Item>, item: Item, part: Item -> seq<Write>, done: seq<Write>, more: seq<Write>, whole: bool)
    requires Distinct(items + [item]) && DoneOf(items, part, done, true)
    requires more <= part(item) && (whole ==> more == part(item)) && forall w :: w in more ==> Target(w) == item.uri
    ensures DoneOf(items + [item], part, done + more, whole)
  {
    var all := items + [item];
    ForOneMore(done, more, item.uri);
    forall other | other in items
      ensures other.uri != item.uri
    {
      var i :| 0 <= i < |items| && items[i] == other;
      assert all[i].uri != all[|items|].uri;
    }
    assert For(done, item.uri) == [];
    assert forall x :: x in all <==> x in items || x == item;
  }

  /** Done of the first `n` items is done of all of them, the others standing at nothing. */
  lemma DoneOfPrefix(items: seq<Item>, n: nat, part: Item -> seq<Write>, done: seq<Write>)
    requires Distinct(items) && n <= |items| && DoneOf(items[..n], part, done, false)
    ensures DoneOf(items, part, done, false)
  {
    forall u | u !in Uris(items)
      ensures u !in Uris(items[..n])
    {
    }
    forall item | item in items && item !in items[..n]
      ensures item.uri !in Uris(items[..n])
    {
      var j :| 0 <= j < |items| && items[j] == item;
      forall other | other in items[..n]
        ensures other.uri != item.uri
      {
        var i :| 0 <= i < n && items[i] == other;
      }
    }
  }

  function Marks(cfg: Cfg, version: nat): Item -> seq<Write> {
    (item: Item) => ItemMarks(cfg, item, version)
  }

  function Tails(cfg: Cfg, version: nat): Item -> seq<Write> {
    (item: Item) => ItemTail(cfg, item, version)
  }

  function Embeds(cfg: Cfg, version: nat, at: nat): Item -> seq<Write> {
    (item: Item) => ItemPuts(cfg, item, version, at)
  }

  function ItemPlans(cfg: Cfg, version: nat, at: nat, lead: Collection): Item -> seq<Write> {
    (item: Item) => ItemPlan(cfg, item, version, at, lead)
  }

  /** Marks every item that has vectors. */
  method MarkBatch(b: Backend, cfg: Cfg, items: seq<Item>, version: nat) returns (ok: bool, ghost done: seq<Write>)
    requires Distinct(items)
    modifies b
    ensures b.Now() == ApplyAll(old(b.Now()), done) && (!ok ==> b.calls == 0)
    ensures DoneOf(items, Marks(cfg, version), done, ok)
  {
    done := [];
    DoneOfNone(Marks(cfg, version));
    for i := 0 to |items|
      invariant b.Now() == ApplyAll(old(b.Now()), done)
      invariant DoneOf(items[..i], Marks(cfg, version), done, true)
    {
      ghost var more: seq<Write> := [];
      ok := true;
      if Vector(cfg, items[i], version) != [] {
        ok := b.MarkResourceIndexPending(items[i].uri);
        more := if ok then [Mark(items[i].uri)] else [];
      }
      ApplyAllConcat(old(b.Now()), done, more);
      assert items[..i + 1] == items[..i] + [items[i]];
      PlanPartsAreOwn(cfg, items[i], version);
      DoneOfMore(items[..i], items[i], Marks(cfg, version), done, more, ok);
      done := done + more;
      if !ok {
        DoneOfPrefix(items, i + 1, Marks(cfg, version), done);
        return;
      }
    }
    assert items[..|items|] == items;
    ok := true;
  }

  /** The vectors of the whole batch, in the order they are embedded. */
  method EmbedBatch(cfg: Cfg, items: seq<Item>, version: nat, at: nat) returns (embedded: seq<Write>)
    requires Distinct(items)
    ensures (forall w :: w in embedded ==> w.Put?) && (items == [] ==> embedded == [])
    ensures DoneOf(items, Embeds(cfg, version, at), embedded, true)
  {
    embedded := [];
    DoneOfNone(Embeds(cfg, version, at));
    for i := 0 to |items|
      invariant (forall w :: w in embedded ==> w.Put?) && (i == 0 ==> embedded == [])
      invariant DoneOf(items[..i], Embeds(cfg, version, at), embedded, true)
    {
      var puts := ItemPuts(cfg, items[i], version, at);
      assert items[..i + 1] == items[..i] + [items[i]];
      PutsAreOwn(cfg, items[i], version, at);
      DoneOfMore(items[..i], items[i], Embeds(cfg, version, at), embedded, puts, true);
      embedded := embedded + puts;
    }
    assert items[..|items|] == items;
  }

  /** Deletes each item's stale points and records its row. */
  method FinishBatch(b: Backend, cfg: Cfg, items: seq<Item>, version: nat) returns (ok: bool, ghost done: seq<Write>)
    requires Distinct(items)
    modifies b
    ensures b.Now() == ApplyAll(old(b.Now()), done) && (!ok ==> b.calls == 0)
    ensures DoneOf(items, Tails(cfg, version), done, ok)
  {
    done := [];
    DoneOfNone(Tails(cfg, version));
    for i := 0 to |items|
      invariant b.Now() == ApplyAll(old(b.Now()), done)
      invariant DoneOf(items[..i], Tails(cfg, version), done, true)
    {
      ghost var tail: seq<Write>;
      ok, tail := FinishItem(b, cfg, items[i], version);
      ApplyAllConcat(old(b.Now()), done, tail);
      assert items[..i + 1] == items[..i] + [items[i]];
      PlanPartsAreOwn(cfg, items[i], version);
      DoneOfMore(items[..i], items[i], Tails(cfg, version), done, tail, ok);
      done := done + tail;
      if !ok {
        DoneOfPrefix(items, i + 1, Tails(cfg, version), done);
        return;
      }
    }
    assert items[..|items|] == items;
    ok := true;
  }

  method FinishItem(b: Backend, cfg: Cfg, item: Item, version: nat) returns (ok: bool, ghost done: seq<Write>)
    modifies b
    ensures b.Now() == ApplyAll(old(b.Now()), done) && (!ok ==> b.calls == 0)
    ensures done <= ItemTail(cfg, item, version)
    ensures ok ==> done == ItemTail(cfg, item, version)
  {
    var row, stale := ItemRow(cfg, item, version), ItemStale(cfg, item, version);
    ok, done := b.DeletePointsByIds(item.uri, stale, stale);
    if !ok {
      return;
    }
    ok := b.UpsertResourceManifest(item.uri, row);
    if ok {
      ApplyAllConcat(old(b.Now()), done, [Record(item.uri, row)]);
      done := done + [Record(item.uri, row)];
    }
  }

  /** `_process_batch`: each resource of the batch gets a prefix of its plan, and all of it when
      nothing fails; nothing at all when the embedder does not answer. */
  method ProcessBatch(b: Backend, cfg: Cfg, items: seq<Item>, version: nat, at: nat, embeds: bool, size: nat)
      returns (ok: bool, embedFailed: bool, ghost done: seq<Write>, ghost lead: Collection)
    requires Distinct(items) && size > 0
    modifies b
    ensures b.Now() == ApplyAll(old(b.Now()), done) && (!ok ==> b.calls == 0)
    ensures embedFailed ==> !embeds && items != [] && done == []
    ensures DoneOf(items, ItemPlans(cfg, version, at, lead), done, ok && !embedFailed)
  {
    ghost var marks: seq<Write>, sent: seq<Write>, tails: seq<Write> := [], [], [];
    var embedded := EmbedBatch(cfg, items, version, at);
    lead := if embedded == [] then Code else Home(embedded[0]);
    done, embedFailed := [], false;
    if embedded != [] && !embeds {
      NothingDone(items, ItemPlans(cfg, version, at, lead));
      return true, true, [], lead;
    }
    ok, marks := MarkBatch(b, cfg, items, version);
    done := marks + sent + tails;
    assert done == marks;
    if !ok {
      PartsDone(cfg, items, version, at, embedded, lead, marks, sent, tails, false, false, false);
      return;
    }
    ok, sent := b.Upsert(embedded, size);
    ApplyAllConcat(old(b.Now()), marks, sent);
    done := marks + sent + tails;
    assert done == marks + sent;
    if !ok {
      PartsDone(cfg, items, version, at, embedded, lead, marks, sent, tails, true, false, false);
      return;
    }
    ok, tails := FinishBatch(b, cfg, items, version);
    ApplyAllConcat(old(b.Now()), marks + sent, tails);
    done := marks + sent + tails;
    PartsDone(cfg, items, version, at, embedded, lead, marks, sent, tails, true, true, ok);
  }

  lemma NothingDone(items: seq<Item>, part: Item -> seq<Write>)
    ensures DoneOf(items, part, [], false)
  {
  }

  lemma ForThree(a: seq<Write>, b: seq<Write>, c: seq<Write>, u: Uri)
    ensures For(a + b + c, u) == For(a, u) + For(b, u) + For(c, u)
  {
    ForConcat(a + b, c, u);
    ForConcat(a, b, u);
  }

  /** Marks, puts and tails, each begun only when the one before it is through. */
  lemma PartsDone(cfg: Cfg, items: seq<Item>, version: nat, at: nat, embedded: seq<Write>, lead: Collection,
                  marks: seq<Write>, sent: seq<Write>, tails: seq<Write>, marked: bool, put: bool, finished: bool)
    requires DoneOf(items, Embeds(cfg, version, at), embedded, true) && (embedded != [] ==> lead == Home(embedded[0]))
    requires DoneOf(items, Marks(cfg, version), marks, marked)
    requires sent <= SendOrder(embedded) && (put ==> sent == SendOrder(embedded)) && (!marked ==> sent == [])
    requires if put then DoneOf(items, Tails(cfg, version), tails, finished) else tails == []
    requires put ==> marked
    ensures DoneOf(items, ItemPlans(cfg, version, at, lead), marks + sent + tails, put && finished)
  {
    forall u
      ensures For(marks + sent + tails, u) == For(marks, u) + For(sent, u) + For(tails, u)
      ensures For(sent, u) <= For(SendOrder(embedded), u)
      ensures u !in Uris(items) ==> For(SendOrder(embedded), u) == []
    {
      ForThree(marks, sent, tails, u);
      PickPrefix(sent, SendOrder(embedded), About(u));
      if u !in Uris(items) {
        ForSendOrder(embedded, u, [], Stamp(Blank, 0), at, lead);
      }
    }
    forall item | item in items
      ensures For(marks + sent + tails, item.uri) <= ItemPlan(cfg, item, version, at, lead)
      ensures put && finished ==> For(marks + sent + tails, item.uri) == ItemPlan(cfg, item, version, at, lead)
    {
      var puts := Puts(item.uri, Bucketed(Vector(cfg, item, version), lead), Stamp(Sha(item.content), version), at);
      ForSendOrder(embedded, item.uri, Vector(cfg, item, version), Stamp(Sha(item.content), version), at, lead);
      ItemPlanParts(cfg, item, version, at, lead);
      PrefixOfThree(ItemMarks(cfg, item, version), puts, ItemTail(cfg, item, version),
        For(marks, item.uri), For(sent, item.uri), For(tails, item.uri));
    }
  }

  /** A part that is not all there has nothing after it. */
  lemma PrefixOfThree(a: seq<Write>, b: seq<Write>, c: seq<Write>, a': seq<Write>, b': seq<Write>, c': seq<Write>)
    requires a' <= a && b' <= b && c' <= c
    requires a' == a || (b' == [] && c' == [])
    requires b' == b || c' == []
    ensures a' + b' + c' <= a + b + c
  {
    if a' != a {
      assert a' + b' + c' == a';
    } else if b' != b {
      assert a' + b' + c' == a + b';
    }
  }

  // ------------------------------------------------------------ the whole run

  /** What was done for a resource is a prefix of `plan`, and all of it with `whole`. */
  predicate PartOf(done: seq<Write>, plan: seq<Write>, whole: bool) {
    done <= plan && (whole ==> done == plan)
  }

  function Reconciliation(s: Store, owner: string, u: Uri): seq<Write> {
    if u.owner == owner && u in s.rows && Missing(s, s.rows[u]) then [Forget(u)] else []
  }

  /** Drops the manifest rows that have lost a point. */
  method Reconcile(b: Backend, owner: string) returns (ok: bool, ghost done: seq<Write>)
    modifies b
    ensures b.Now() == ApplyAll(old(b.Now()), done) && (!ok ==> b.calls == 0)
    ensures forall u :: PartOf(For(done, u), Reconciliation(old(b.Now()), owner, u), ok)
  {
    var existing := set k | k in b.points :: k.id;
    var stale := set u | u in b.rows && u.owner == owner && !(b.rows[u].ids <= existing);
    ghost var all := stale;
    done := [];
    while stale != {}
      invariant b.Now() == ApplyAll(old(b.Now()), done)
      invariant stale <= all && Forgotten(all - stale, done)
      decreases stale
    {
      var u :| u in stale;
      ok := b.DeleteResourceManifest(u);
      if !ok {
        StaleAreMissing(old(b.Now()), owner, existing, all, stale, done, false);
        return;
      }
      ApplyAllConcat(old(b.Now()), done, [Forget(u)]);
      ForgetOneMore(all, stale, u, done);
      done, stale := done + [Forget(u)], stale - {u};
    }
    StaleAreMissing(old(b.Now()), owner, existing, all, stale, done, true);
    ok := true;
  }

  ghost predicate Forgotten(gone: set<Uri>, done: seq<Write>) {
    forall u :: For(done, u) == if u in gone then [Forget(u)] else []
  }

  lemma ForgetOneMore(all: set<Uri>, stale: set<Uri>, u: Uri, done: seq<Write>)
    requires u in stale && stale <= all && Forgotten(all - stale, done)
    ensures Forgotten(all - (stale - {u}), done + [Forget(u)])
  {
    ForOneMore(done, [Forget(u)], u);
  }

  lemma StaleAreMissing(s: Store, owner: string, existing: set<ChunkId>, all: set<Uri>, stale: set<Uri>, done: seq<Write>, whole: bool)
    requires existing == set k | k in s.points :: k.id
    requires all == set u | u in s.rows && u.owner == owner && !(s.rows[u].ids <= existing)
    requires stale <= all && Forgotten(all - stale, done) && (whole ==> stale == {})
    ensures forall u :: PartOf(For(done, u), Reconciliation(s, owner, u), whole)
  {
    forall u
      ensures PartOf(For(done, u), Reconciliation(s, owner, u), whole)
    {
      if u in s.rows {
        MissingIsNotSubset(s, s.rows[u], existing);
      }
    }
  }

  lemma MissingIsNotSubset(s: Store, row: Row, existing: set<ChunkId>)
    requires existing == set k | k in s.points :: k.id
    ensures !(row.ids <= existing) <==> Missing(s, row)
  {
    forall id
      ensures id in existing <==> Exists(s, id)
    {
      if id in existing {
        var k: Key :| k in s.points && k.id == id;
        assert k == Key(k.collection, id);
        assert k.collection == Code || k.collection == Text;
      }
    }
  }

  method RemoveOne(b: Backend, u: Uri, row: Row) returns (ok: bool, ghost done: seq<Write>)
    modifies b
    ensures b.Now() == ApplyAll(old(b.Now()), done) && (!ok ==> b.calls == 0)
    ensures PartOf(done, RemovalPlan(u, row), ok)
  {
    ok, done := b.DeletePointsByIds(u, row.ids, row.ids);
    if !ok {
      return;
    }
    ok := b.DeleteResourceManifest(u);
    if ok {
      ApplyAllConcat(old(b.Now()), done, [Forget(u)]);
      done := done + [Forget(u)];
    }
  }

  function Removal(manifest: map<Uri, Row>, current: set<Uri>, u: Uri): seq<Write> {
    if u in manifest && u !in current then RemovalPlan(u, manifest[u]) else []
  }

  lemma RemovalIsOwn(u: Uri, row: Row, part: seq<Write>)
    requires part <= RemovalPlan(u, row)
    ensures forall w :: w in part ==> Target(w) == u
  {
  }

  /** Deletes the rows of resources that are gone from the source, points first. */
  method RemoveGone(b: Backend, manifest: map<Uri, Row>, current: set<Uri>) returns (ok: bool, ghost done: seq<Write>)
    modifies b
    ensures b.Now() == ApplyAll(old(b.Now()), done) && (!ok ==> b.calls == 0)
    ensures forall u :: PartOf(For(done, u), Removal(manifest, current, u), ok)
  {
    var gone := manifest.Keys - current;
    done := [];
    while gone != {}
      invariant b.Now() == ApplyAll(old(b.Now()), done)
      invariant gone <= manifest.Keys - current && RemovedBut(manifest, current, gone, done)
      decreases gone
    {
      var u :| u in gone;
      ghost var plan: seq<Write>;
      ok, plan := RemoveOne(b, u, manifest[u]);
      ApplyAllConcat(old(b.Now()), done, plan);
      RemovalIsOwn(u, manifest[u], plan);
      RemoveOneMore(manifest, current, gone, u, done, plan, done + plan, ok);
      done := done + plan;
      if !ok {
        return;
      }
      gone := gone - {u};
    }
    ok := true;
  }

  ghost predicate RemovedBut(manifest: map<Uri, Row>, current: set<Uri>, gone: set<Uri>, done: seq<Write>) {
    forall u :: For(done, u) == if u in gone then [] else Removal(manifest, current, u)
  }

  lemma RemoveOneMore(manifest: map<Uri, Row>, current: set<Uri>, gone: set<Uri>, u: Uri,
                      done: seq<Write>, plan: seq<Write>, all: seq<Write>, whole: bool)
    requires u in gone && RemovedBut(manifest, current, gone, done)
    requires PartOf(plan, Removal(manifest, current, u), whole) && all == done + plan
    requires forall w :: w in plan ==> Target(w) == u
    ensures forall v :: PartOf(For(all, v), Removal(manifest, current, v), false)
    ensures whole ==> RemovedBut(manifest, current, gone - {u}, all)
  {
    ForOneMore(done, plan, u);
    assert For(all, u) == [] + plan == plan;
    forall v
      ensures PartOf(For(all, v), Removal(manifest, current, v), false)
      ensures whole ==> For(all, v) == if v in gone - {u} then [] else Removal(manifest, current, v)
    {
      assert v != u ==> For(all, v) == For(done, v) + [] == For(done, v);
    }
  }

  /** What the index step does for one listed resource, given the manifest loaded at the start. */
  function Pending(manifest: map<Uri, Row>, source: map<Uri, Content>, u: Uri, version: nat): Option<Item> {
    if u !in source then None
    else
      var prior := if u in manifest then Some(manifest[u]) else None;
      if Classify(prior, source[u], version) == Skip then None else Some(Item(u, source[u], prior))
  }

  function Indexing(cfg: Cfg, manifest: map<Uri, Row>, source: map<Uri, Content>, version: nat, at: nat,
                    leads: map<Uri, Collection>, u: Uri): seq<Write> {
    match Pending(manifest, source, u, version)
    case None => []
    case Some(item) => ItemPlan(cfg, item, version, at, if u in leads then leads[u] else Code)
  }

  /** Reads and classifies the listing, flushing a batch whenever `batchSize` items are pending. A
      batch whose embedding fails is left out, and the rest goes on. */
  method IndexListed(b: Backend, cfg: Cfg, manifest: map<Uri, Row>, source: map<Uri, Content>, listing: seq<Uri>,
                     version: nat, at: nat, batchSize: nat, embeds: nat -> bool, size: nat)
      returns (ok: bool, embedErrors: nat, ghost done: seq<Write>, ghost leads: map<Uri, Collection>, ghost left: set<Uri>)
    requires batchSize > 0 && size > 0
    requires NoDuplicates(listing)
    requires forall u :: u in listing <==> u in source
    modifies b
    ensures b.Now() == ApplyAll(old(b.Now()), done) && (!ok ==> b.calls == 0)
    ensures (forall n :: embeds(n)) ==> embedErrors == 0
    ensures left <= source.Keys && |left| <= Most(embedErrors, batchSize) < |listing| + batchSize
    ensures forall u :: IndexedAt(done, Indexing(cfg, manifest, source, version, at, leads, u), left, ok, u)
  {
    var pending: seq<Item> := [];
    done, leads, left := [], map[], {};
    embedErrors := 0;
    var i, batches := 0, 0;
    ghost var full := 0;
    while i < |listing|
      invariant 0 <= i <= |listing| && batches >= 0 && Most(embedErrors, batchSize) <= full && full + |pending| <= i
      invariant (forall n :: embeds(n)) ==> embedErrors == 0
      invariant b.Now() == ApplyAll(old(b.Now()), done)
      invariant PendingOk(manifest, source, version, listing[..i], pending, leads.Keys) && |pending| < batchSize
      invariant Flushed(cfg, manifest, source, version, at, done, leads, left, true) && |left| <= Most(embedErrors, batchSize)
    {
      var u := listing[i];
      assert listing[..i + 1] == listing[..i] + [u];
      assert u !in listing[..i];
      var next := Pending(manifest, source, u, version);
      PendOneMore(manifest, source, version, listing[..i], u, pending, leads.Keys);
      i := i + 1;
      if next.Some? {
        pending := pending + [next.value];
        if |pending| >= batchSize {
          ghost var known := leads.Keys;
          ok, embedErrors, done, leads, left := Flush(b, cfg, manifest, source, pending, version, at, embeds(batches), size,
            batchSize, embedErrors, old(b.Now()), done, leads, left);
          PendNone(manifest, source, version, listing[..i], pending, known);
          pending, batches, full := [], batches + 1, full + batchSize;
          if !ok {
            AllIndexed(cfg, manifest, source, version, at, done, leads, left, false);
            return;
          }
        }
      }
    }
    assert listing[..i] == listing;
    ghost var known := leads.Keys;
    ok, embedErrors, done, leads, left := Flush(b, cfg, manifest, source, pending, version, at, embeds(batches), size,
      batchSize, embedErrors, old(b.Now()), done, leads, left);
    PendNone(manifest, source, version, listing, pending, known);
    AllListed(manifest, source, version, listing, leads.Keys);
    AllIndexed(cfg, manifest, source, version, at, done, leads, left, ok);
  }

  /** Of the resources read so far, those to index are flushed already (`known`) or pending. */
  ghost predicate PendingOk(manifest: map<Uri, Row>, source: map<Uri, Content>, version: nat, read: seq<Uri>,
                            pending: seq<Item>, known: set<Uri>) {
    && Distinct(pending) && Uris(pending) !! known
    && (forall item :: item in pending ==> item.uri in read && Pending(manifest, source, item.uri, version) == Some(item))
    && (forall u :: u in known ==> u in read)
    && (forall u :: u in read && Pending(manifest, source, u, version).Some? ==> u in known || u in Uris(pending))
  }

  lemma PendOneMore(manifest: map<Uri, Row>, source: map<Uri, Content>, version: nat, read: seq<Uri>, u: Uri,
                    pending: seq<Item>, known: set<Uri>)
    requires PendingOk(manifest, source, version, read, pending, known) && u !in read
    ensures var next := Pending(manifest, source, u, version);
      PendingOk(manifest, source, version, read + [u], if next.Some? then pending + [next.value] else pending, known)
  {
    var next := Pending(manifest, source, u, version);
    if next.Some? {
      var more := pending + [next.value];
      assert forall item :: item in more <==> item in pending || item == next.value;
      assert next.value in more;
    }
  }

  lemma PendNone(manifest: map<Uri, Row>, source: map<Uri, Content>, version: nat, read: seq<Uri>,
                 pending: seq<Item>, known: set<Uri>)
    requires PendingOk(manifest, source, version, read, pending, known)
    ensures PendingOk(manifest, source, version, read, [], known + Uris(pending))
  {
  }

  lemma AllListed(manifest: map<Uri, Row>, source: map<Uri, Content>, version: nat, listing: seq<Uri>, known: set<Uri>)
    requires PendingOk(manifest, source, version, listing, [], known) && forall u :: u in listing <==> u in source
    ensures forall u :: u !in known ==> Pending(manifest, source, u, version) == None
  {
  }

  /** Nothing was done for a resource whose batch was left out; for any other a part, or all with `whole`. */
  predicate IndexedAt(done: seq<Write>, plan: seq<Write>, left: set<Uri>, whole: bool, u: Uri) {
    if u in left then For(done, u) == [] else PartOf(For(done, u), plan, whole)
  }

  lemma AllIndexed(cfg: Cfg, manifest: map<Uri, Row>, source: map<Uri, Content>,
                   version: nat, at: nat, done: seq<Write>, leads: map<Uri, Collection>, left: set<Uri>, whole: bool)
    requires Flushed(cfg, manifest, source, version, at, done, leads, left, whole)
    requires whole ==> forall u :: u !in leads ==> Pending(manifest, source, u, version) == None
    ensures left <= source.Keys
    ensures forall u :: IndexedAt(done, Indexing(cfg, manifest, source, version, at, leads, u), left, whole, u)
  {
    forall u
      ensures u in left ==> u in source
      ensures IndexedAt(done, Indexing(cfg, manifest, source, version, at, leads, u), left, whole, u)
    {
      assert FlushedAt(cfg, manifest, source, version, at, done, leads, left, whole, u);
    }
  }

  /** Resources in `leads` have had their plan or a part of it, or were left out; the others nothing. */
  ghost predicate Flushed(cfg: Cfg, manifest: map<Uri, Row>, source: map<Uri, Content>, version: nat, at: nat,
                          done: seq<Write>, leads: map<Uri, Collection>, left: set<Uri>, whole: bool) {
    forall u :: FlushedAt(cfg, manifest, source, version, at, done, leads, left, whole, u)
  }

  predicate FlushedAt(cfg: Cfg, manifest: map<Uri, Row>, source: map<Uri, Content>, version: nat, at: nat,
                      done: seq<Write>, leads: map<Uri, Collection>, left: set<Uri>, whole: bool, u: Uri) {
    if u in leads then
      Pending(manifest, source, u, version).Some?
      && IndexedAt(done, ItemPlan(cfg, Pending(manifest, source, u, version).value, version, at, leads[u]), left, whole, u)
    else For(done, u) == [] && u !in left
  }

  method Flush(b: Backend, cfg: Cfg, ghost manifest: map<Uri, Row>, ghost source: map<Uri, Content>, items: seq<Item>,
               version: nat, at: nat, embeds: bool, size: nat, ghost batchSize: nat, errors: nat,
               ghost start: Store, ghost done: seq<Write>, ghost leads: map<Uri, Collection>, ghost left: set<Uri>)
      returns (ok: bool, errors': nat, ghost done': seq<Write>, ghost leads': map<Uri, Collection>, ghost left': set<Uri>)
    requires Distinct(items) && size > 0 && Uris(items) !! leads.Keys && |items| <= batchSize
    requires forall item :: item in items ==> Pending(manifest, source, item.uri, version) == Some(item)
    requires b.Now() == ApplyAll(start, done) && Flushed(cfg, manifest, source, version, at, done, leads, left, true)
    requires |left| <= Most(errors, batchSize)
    modifies b
    ensures b.Now() == ApplyAll(start, done') && (!ok ==> b.calls == 0)
    ensures errors <= errors' <= errors + 1 && (embeds || items == [] ==> errors' == errors)
    ensures leads'.Keys == leads.Keys + Uris(items) && |left'| <= Most(errors', batchSize)
    ensures Most(errors', batchSize) <= Most(errors, batchSize) + if items == [] then 0 else batchSize
    ensures Flushed(cfg, manifest, source, version, at, done', leads', left', ok)
  {
    ghost var more: seq<Write>, lead: Collection;
    var embedFailed;
    ok, embedFailed, more, lead := ProcessBatch(b, cfg, items, version, at, embeds, size);
    errors' := if embedFailed then errors + 1 else errors;
    ApplyAllConcat(start, done, more);
    done' := done + more;
    leads' := leads + map u | u in Uris(items) :: lead;
    left' := if embedFailed then left + Uris(items) else left;
    FlushedEither(cfg, manifest, source, items, version, at, done, more, leads, lead, left, left', ok, embedFailed,
      leads', done', batchSize, errors, errors');
  }

  /** How many resources so many batches hold at most. */
  function Most(batches: nat, batchSize: nat): nat {
    if batches == 0 then 0 else Most(batches - 1, batchSize) + batchSize
  }

  lemma UrisCount(items: seq<Item>, left: set<Uri>, errors: nat, batchSize: nat)
    requires |items| <= batchSize && |left| <= Most(errors, batchSize)
    ensures |left + Uris(items)| <= Most(errors + 1, batchSize)
  {
    UrisAtMost(items);
    var more := Uris(items) - left;
    assert left + Uris(items) == left + more && Uris(items) == more + (Uris(items) * left);
    assert more !! Uris(items) * left;
  }

  lemma {:induction false} UrisAtMost(items: seq<Item>)
    ensures |Uris(items)| <= |items|
  {
    if items != [] {
      var most, last := items[..|items| - 1], items[|items| - 1];
      UrisAtMost(most);
      assert Uris(items) == Uris(most) + {last.uri};
    }
  }

  lemma FlushedMore(cfg: Cfg, manifest: map<Uri, Row>, source: map<Uri, Content>, items: seq<Item>, version: nat, at: nat,
                    done: seq<Write>, more: seq<Write>, leads: map<Uri, Collection>, lead: Collection,
                    left: set<Uri>, whole: bool, leads': map<Uri, Collection>, all: seq<Write>)
    requires forall item :: item in items ==> Pending(manifest, source, item.uri, version) == Some(item)
    requires Uris(items) !! leads.Keys && leads' == leads + map u | u in Uris(items) :: lead
    requires Flushed(cfg, manifest, source, version, at, done, leads, left, true)
    requires DoneOf(items, ItemPlans(cfg, version, at, lead), more, whole) && all == done + more
    ensures Flushed(cfg, manifest, source, version, at, all, leads', left, whole)
  {
    forall u
      ensures FlushedAt(cfg, manifest, source, version, at, all, leads', left, whole, u)
    {
      assert FlushedAt(cfg, manifest, source, version, at, done, leads, left, true, u);
      ForConcat(done, more, u);
      if u in Uris(items) {
        var item :| item in items && item.uri == u;
        assert For(done, u) == [] && [] + For(more, u) == For(more, u);
      } else {
        assert For(done, u) + [] == For(done, u);
      }
    }
  }

  lemma FlushedEither(cfg: Cfg, manifest: map<Uri, Row>, source: map<Uri, Content>, items: seq<Item>, version: nat, at: nat,
                      done: seq<Write>, more: seq<Write>, leads: map<Uri, Collection>, lead: Collection,
                      left: set<Uri>, left': set<Uri>, whole: bool, embedFailed: bool,
                      leads': map<Uri, Collection>, all: seq<Write>, batchSize: nat, errors: nat, errors': nat)
    requires forall item :: item in items ==> Pending(manifest, source, item.uri, version) == Some(item)
    requires Uris(items) !! leads.Keys && leads' == leads + map u | u in Uris(items) :: lead
    requires Flushed(cfg, manifest, source, version, at, done, leads, left, true)
    requires DoneOf(items, ItemPlans(cfg, version, at, lead), more, whole && !embedFailed) && (embedFailed ==> more == [])
    requires all == done + more && left' == if embedFailed then left + Uris(items) else left
    requires |items| <= batchSize && |left| <= Most(errors, batchSize) && errors' == if embedFailed then errors + 1 else errors
    ensures Flushed(cfg, manifest, source, version, at, all, leads', left', whole)
    ensures leads'.Keys == leads.Keys + Uris(items) && |left'| <= Most(errors', batchSize)
  {
    if embedFailed {
      UrisCount(items, left, errors, batchSize);
      FlushedLess(cfg, manifest, source, items, version, at, done, leads, lead, left, left', whole, leads', all);
    } else {
      FlushedMore(cfg, manifest, source, items, version, at, done, more, leads, lead, left, whole, leads', all);
    }
  }

  /** A batch whose embedding failed is left out. */
  lemma FlushedLess(cfg: Cfg, manifest: map<Uri, Row>, source: map<Uri, Content>, items: seq<Item>, version: nat, at: nat,
                    done: seq<Write>, leads: map<Uri, Collection>, lead: Collection,
                    left: set<Uri>, left': set<Uri>, whole: bool, leads': map<Uri, Collection>, all: seq<Write>)
    requires forall item :: item in items ==> Pending(manifest, source, item.uri, version) == Some(item)
    requires Uris(items) !! leads.Keys && leads' == leads + map u | u in Uris(items) :: lead
    requires Flushed(cfg, manifest, source, version, at, done, leads, left, true)
    requires left' == left + Uris(items) && all == done
    ensures Flushed(cfg, manifest, source, version, at, all, leads', left', whole)
  {
    forall u
      ensures FlushedAt(cfg, manifest, source, version, at, all, leads', left', whole, u)
    {
      assert FlushedAt(cfg, manifest, source, version, at, done, leads, left, true, u);
      if u in Uris(items) {
        var item :| item in items && item.uri == u;
      }
    }
  }

  /** The whole pass. It fails only when the stores do; however it ends, it has written a prefix of what
      is due for each resource. When it completes, all that is due was done for every resource but those
      of the batches whose embedding failed, whose points it has not touched; so `DeltaEqualsFullIff`
      applies to the stores it leaves when no embedding failed. */
  method RunIngest(b: Backend, cfg: Cfg, owner: string, source: map<Uri, Content>, listing: seq<Uri>,
                   version: nat, at: nat, batchSize: nat, embeds: nat -> bool, size: nat)
      returns (ok: bool, embedErrors: nat, ghost done: seq<Write>, ghost pass: Pass, ghost left: set<Uri>)
    requires batchSize > 0 && size > 0 && !cfg.daemon(owner)
    requires forall u :: u in source ==> u.owner == owner
    requires NoDuplicates(listing)
    requires forall u :: u in listing <==> u in source
    modifies b
    ensures b.Now() == ApplyAll(old(b.Now()), done) && (!ok ==> b.calls == 0)
    ensures ValidPass(cfg, pass) && pass.owner == owner && pass.source == source && pass.version == version
    ensures (forall n :: embeds(n)) ==> embedErrors == 0
    ensures IsCutDelta(cfg, old(b.Now()), pass, done)
    ensures left <= source.Keys && |left| <= Most(embedErrors, batchSize) < |listing| + batchSize
    ensures ok ==> forall u: Uri :: u.owner == owner && u !in left ==> DoneFor(cfg, old(b.Now()), pass, done, u)
    ensures ok ==> forall u :: u in left ==> For(done, u) == Reconciliation(old(b.Now()), owner, u)
    ensures ok && embedErrors == 0 ==> IsDelta(cfg, old(b.Now()), pass, done)
  {
    ghost var s := b.Now();
    left := {};
    ghost var forgot: seq<Write>, indexed: seq<Write>, removed: seq<Write>, leads: map<Uri, Collection> := [], [], [], map[];
    pass, embedErrors := Pass(owner, source, version, u => at, u => Code), 0;
    ok, forgot := Reconcile(b, owner);
    done := forgot;
    if !ok {
      PassDone(cfg, s, pass, at, leads, left, forgot, indexed, removed, false, false, false);
      assert forgot + indexed + removed == done;
      return;
    }
    ForgetsOnly(s, forgot, owner);
    var manifest := map u | u in b.rows && u.owner == owner :: b.rows[u];
    assert manifest == Manifest(s, owner);
    ok, embedErrors, indexed, leads, left := IndexListed(b, cfg, manifest, source, listing, version, at, batchSize, embeds, size);
    pass := Pass(owner, source, version, u => at, u => if u in leads then leads[u] else Code);
    ApplyAllConcat(s, forgot, indexed);
    done := forgot + indexed;
    if !ok {
      PassDone(cfg, s, pass, at, leads, left, forgot, indexed, removed, true, false, false);
      assert forgot + indexed + removed == done;
      return;
    }
    ok, removed := RemoveGone(b, manifest, source.Keys);
    ApplyAllConcat(s, forgot + indexed, removed);
    done := forgot + indexed + removed;
    PassDone(cfg, s, pass, at, leads, left, forgot, indexed, removed, true, true, ok);
  }

  /** The rows of the source key once the reconciliation is through. */
  function Manifest(s: Store, owner: string): map<Uri, Row> {
    map u | u in s.rows && u.owner == owner && Survivor(s, u).Some? :: s.rows[u]
  }

  /** Reconciliation, indexing and removal together are what the pass does for a resource. */
  lemma PassParts(cfg: Cfg, s: Store, pass: Pass, at: nat, leads: map<Uri, Collection>, u: Uri)
    requires ValidPass(cfg, pass) && pass.at(u) == at && pass.lead(u) == if u in leads then leads[u] else Code
    ensures Reconciliation(s, pass.owner, u)
            + Indexing(cfg, Manifest(s, pass.owner), pass.source, pass.version, at, leads, u)
            + Removal(Manifest(s, pass.owner), pass.source.Keys, u)
         == if u.owner == pass.owner then PassWrites(cfg, s, pass, u) else []
  {
  }

  lemma PassDone(cfg: Cfg, s: Store, pass: Pass, at: nat, leads: map<Uri, Collection>, left: set<Uri>,
                 forgot: seq<Write>, indexed: seq<Write>, removed: seq<Write>, a: bool, b: bool, c: bool)
    requires ValidPass(cfg, pass) && left <= pass.source.Keys
    requires forall u :: pass.at(u) == at && pass.lead(u) == if u in leads then leads[u] else Code
    requires forall u :: PartOf(For(forgot, u), Reconciliation(s, pass.owner, u), a)
    requires forall u ::
      IndexedAt(indexed, Indexing(cfg, Manifest(s, pass.owner), pass.source, pass.version, at, leads, u), left, b, u)
    requires forall u :: PartOf(For(removed, u), Removal(Manifest(s, pass.owner), pass.source.Keys, u), c)
    requires (!a ==> indexed == [] && removed == []) && (!b ==> removed == [])
    ensures IsCutDelta(cfg, s, pass, forgot + indexed + removed)
    ensures a && b && c ==> forall u: Uri :: u.owner == pass.owner && u !in left ==> DoneFor(cfg, s, pass, forgot + indexed + removed, u)
    ensures a && b && c ==> forall u :: u in left ==> For(forgot + indexed + removed, u) == Reconciliation(s, pass.owner, u)
    ensures a && b && c && left == {} ==> IsDelta(cfg, s, pass, forgot + indexed + removed)
  {
    var all := forgot + indexed + removed;
    forall u
      ensures PartOf(For(all, u), if u.owner == pass.owner then PassWrites(cfg, s, pass, u) else [], a && b && c && u !in left)
      ensures u in left ==> For(all, u) == For(forgot, u)
    {
      ForThree(forgot, indexed, removed, u);
      PassParts(cfg, s, pass, at, leads, u);
      PrefixOfThree(Reconciliation(s, pass.owner, u),
        Indexing(cfg, Manifest(s, pass.owner), pass.source, pass.version, at, leads, u),
        Removal(Manifest(s, pass.owner), pass.source.Keys, u),
        For(forgot, u), For(indexed, u), For(removed, u));
    }
  }

  /** After the reconciliation exactly the surviving rows of the source key are left. */
  lemma ForgetsOnly(s: Store, ws: seq<Write>, owner: string)
    requires forall u :: For(ws, u) == Reconciliation(s, owner, u)
    ensures var t := ApplyAll(s, ws);
      (map u | u in t.rows && u.owner == owner :: t.rows[u]) == Manifest(s, owner)
  {
    forall w | w in ws
      ensures Local(w)
    {
      PickMembers(ws, About(Target(w)), w);
      assert w in For(ws, Target(w));
    }
    forall u: Uri | u.owner == owner
      ensures var t := ApplyAll(s, ws);
        (u in t.rows <==> Survivor(s, u).Some?) && (u in t.rows ==> t.rows[u] == s.rows[u])
    {
      Projection(s, s, ws, u);
      if For(ws, u) != [] {
        ApplyOne(s, Forget(u));
      }
    }
  }
}
