/** What ingests, passes and reindexes leave of a resource, said in terms of the chunker's spans, the
    summaries and the old row alone: every row, every point and every point's payload. */
module PassEffect {
  import opened Stores
  import opened Lists
  import opened Plans
  import opened Claims
  import opened ClaimLimits
  import opened DeltaRun
  import opened Backend
  import opened Runs

  // ------------------------------------------------------------ which points a content has

  /** The content has a chunk of this kind at this key: a code span in the code collection, any other
      span in the text collection, and, when they are extracted, the summary and the community summary
      at lines 0-0 and 0-1 of the text collection. */
  predicate Stands(cfg: Cfg, u: Uri, c: Content, extracted: bool, key: Key, kind: Artifact) {
    key.id.uri == u
    && match kind
       case CodeChunk =>
         key.collection == Code && exists span :: span in cfg.spans(u, c) && span.code && span.first == key.id.first && span.last == key.id.last
       case DocChunk =>
         key.collection == Text && exists span :: span in cfg.spans(u, c) && !span.code && span.first == key.id.first && span.last == key.id.last
       case Summary => extracted && cfg.summary(u, c) && key == Key(Text, ChunkId(u, 0, 0))
       case CommunitySummary => extracted && cfg.community(u, c) && key == Key(Text, ChunkId(u, 0, 1))
  }

  ghost predicate HasChunk(cfg: Cfg, u: Uri, c: Content, extracted: bool, key: Key) {
    exists kind :: Stands(cfg, u, c, extracted, key, kind)
  }

  /** The ids of all of them. */
  ghost predicate IdsStand(cfg: Cfg, u: Uri, c: Content, extracted: bool, ids: set<ChunkId>) {
    forall id :: id in ids <==> exists coll :: HasChunk(cfg, u, c, extracted, Key(coll, id))
  }

  lemma RawStand(cfg: Cfg, u: Uri, c: Content, ch: Chunk)
    ensures ch in RawChunks(cfg, u, c) <==>
      (ch.artifact == CodeChunk || ch.artifact == DocChunk)
      && exists span :: span in cfg.spans(u, c) && span.code == (ch.artifact == CodeChunk) && span.first == ch.first && span.last == ch.last
  {
    var spans, raw := cfg.spans(u, c), RawChunks(cfg, u, c);
    assert |raw| == |spans| && forall i :: 0 <= i < |spans| ==>
      raw[i] == Chunk(spans[i].first, spans[i].last, if spans[i].code then CodeChunk else DocChunk);
    if ch.artifact == CodeChunk || ch.artifact == DocChunk {
      if span :| span in spans && span.code == (ch.artifact == CodeChunk) && span.first == ch.first && span.last == ch.last {
        var i :| 0 <= i < |spans| && spans[i] == span;
        assert raw[i] == ch;
      }
    }
  }

  lemma ChunkStands(cfg: Cfg, u: Uri, c: Content, extracted: bool, ch: Chunk)
    ensures ch in IngestChunks(cfg, u, c, extracted) <==>
      Stands(cfg, u, c, extracted, KeyOf(u, ch), ch.artifact)
      && (ch.artifact == Summary ==> ch == Chunk(0, 0, Summary)) && (ch.artifact == CommunitySummary ==> ch == Chunk(0, 1, CommunitySummary))
  {
    RawStand(cfg, u, c, ch);
  }

  lemma KeyStands(cfg: Cfg, u: Uri, c: Content, extracted: bool, key: Key)
    ensures key in Keys(u, IngestChunks(cfg, u, c, extracted)) <==> HasChunk(cfg, u, c, extracted, key)
  {
    if kind :| Stands(cfg, u, c, extracted, key, kind) {
      var ch := Chunk(key.id.first, key.id.last, kind);
      ChunkStands(cfg, u, c, extracted, ch);
      assert KeyOf(u, ch) == key;
    }
    if key in Keys(u, IngestChunks(cfg, u, c, extracted)) {
      var ch :| ch in IngestChunks(cfg, u, c, extracted) && KeyOf(u, ch) == key;
      ChunkStands(cfg, u, c, extracted, ch);
    }
  }

  lemma IngestIdsStand(cfg: Cfg, u: Uri, c: Content, extracted: bool)
    ensures IdsStand(cfg, u, c, extracted, Ids(u, IngestChunks(cfg, u, c, extracted)))
  {
    forall id
      ensures id in Ids(u, IngestChunks(cfg, u, c, extracted)) <==> exists coll :: HasChunk(cfg, u, c, extracted, Key(coll, id))
    {
      if id in Ids(u, IngestChunks(cfg, u, c, extracted)) {
        var ch :| ch in IngestChunks(cfg, u, c, extracted) && KeyOf(u, ch).id == id;
        ChunkStands(cfg, u, c, extracted, ch);
        assert Stands(cfg, u, c, extracted, Key(KeyOf(u, ch).collection, id), ch.artifact);
        assert HasChunk(cfg, u, c, extracted, Key(KeyOf(u, ch).collection, id));
      }
      if coll :| HasChunk(cfg, u, c, extracted, Key(coll, id)) {
        KeyStands(cfg, u, c, extracted, Key(coll, id));
      }
    }
  }

  /** A point put for one of the chunks carries the kind that stands there, the stamp and the time. */
  ghost predicate PutFor(cfg: Cfg, u: Uri, c: Content, extracted: bool, key: Key, stamp: Stamp, at: nat, p: Point) {
    Stands(cfg, u, c, extracted, key, p.artifact) && p.stamp == stamp && !p.skill && p.at == Some(at)
  }

  lemma FromChunkIsPutFor(cfg: Cfg, u: Uri, c: Content, extracted: bool, chunks: seq<Chunk>, key: Key, stamp: Stamp, at: nat, p: Point)
    requires FromChunk(u, chunks, key, stamp, at, p) && forall ch :: ch in chunks ==> ch in IngestChunks(cfg, u, c, extracted)
    ensures PutFor(cfg, u, c, extracted, key, stamp, at, p)
  {
    var ch :| ch in chunks && KeyOf(u, ch) == key && p == Point(stamp, ch.artifact, false, Some(at));
    ChunkStands(cfg, u, c, extracted, ch);
  }

  /** Every chunk of the content has its point, just put; every other point of `u` is as in `s`, but
      for those whose ids are `gone`. */
  ghost predicate PointsAre(cfg: Cfg, u: Uri, c: Content, extracted: bool, stamp: Stamp, at: nat, s: Store, gone: set<ChunkId>, t: Store) {
    && (forall key :: HasChunk(cfg, u, c, extracted, key) ==>
          key in t.points && PutFor(cfg, u, c, extracted, key, stamp, at, t.points[key]))
    && (forall key: Key :: key.id.uri == u && !HasChunk(cfg, u, c, extracted, key) ==> Untouched(key, s, gone, t))
  }

  predicate Untouched(key: Key, s: Store, gone: set<ChunkId>, t: Store) {
    && (key in t.points <==> key in s.points && key.id !in gone)
    && (key in t.points ==> t.points[key] == s.points[key])
  }

  lemma PointsFrom(cfg: Cfg, u: Uri, c: Content, extracted: bool, chunks: seq<Chunk>, stamp: Stamp, at: nat, s: Store, gone: set<ChunkId>, t: Store)
    requires forall ch :: ch in chunks <==> ch in IngestChunks(cfg, u, c, extracted)
    requires forall key :: key in Keys(u, chunks) ==> key in t.points && FromChunk(u, chunks, key, stamp, at, t.points[key])
    requires forall key: Key :: key.id.uri == u && key !in Keys(u, chunks) ==> Untouched(key, s, gone, t)
    ensures PointsAre(cfg, u, c, extracted, stamp, at, s, gone, t)
  {
    forall key
      ensures HasChunk(cfg, u, c, extracted, key) <==> key in Keys(u, chunks)
    {
      KeyStands(cfg, u, c, extracted, key);
    }
    forall key | key in Keys(u, chunks)
      ensures PutFor(cfg, u, c, extracted, key, stamp, at, t.points[key])
    {
      FromChunkIsPutFor(cfg, u, c, extracted, chunks, key, stamp, at, t.points[key]);
    }
  }

  // ------------------------------------------------------------ one ingest

  function OldIds(prior: Option<Row>): set<ChunkId> {
    if prior.Some? then prior.value.ids else {}
  }

  lemma IngestEffect(cfg: Cfg, s: Store, u: Uri, prior: Option<Row>, c: Content, version: nat, at: nat, lead: Collection, graph: GraphOutcome)
    requires prior.Some? ==> OwnIds(u, prior.value)
    ensures var action := Classify(prior, c, version);
      var row, vector := NewRow(cfg, u, prior, c, version, action, graph), VectorChunks(cfg, u, c, action, graph != ExtractFailed);
      var t := ApplyAll(s, IngestPlan(cfg, prior, u, c, version, at, lead, graph));
      && t.rows == s.rows[u := row]
      && (forall key :: key in t.points <==>
            key in Keys(u, vector) || (key in s.points && !(key.id in OldIds(prior) && key.id !in row.ids)))
      && (forall key :: key in Keys(u, vector) ==> FromChunk(u, vector, key, row.stamp, at, t.points[key]))
      && (forall key :: key in t.points && key !in Keys(u, vector) ==> t.points[key] == s.points[key])
  {
    var action := Classify(prior, c, version);
    var chunks := VectorChunks(cfg, u, c, action, graph != ExtractFailed);
    var vector, row := Bucketed(chunks, lead), NewRow(cfg, u, prior, c, version, action, graph);
    var stale := OldIds(prior) - row.ids;
    BucketedSame(u, chunks, lead);
    var plan := IngestPlan(cfg, prior, u, c, version, at, lead, graph);
    assert plan == Shaped(u, vector != [], vector, at, Drops(u, stale), row);
    ShapedEffect(s, u, vector != [], vector, at, Drops(u, stale), row);
    VectorIsClaimed(cfg, u, prior, c, version, graph);
    forall key
      ensures Dropped(Drops(u, stale), key) <==> key.id in stale
    {
      DroppedByDrops(u, stale, key);
    }
    var t := ApplyAll(s, plan);
    forall key | key in Keys(u, chunks)
      ensures FromChunk(u, chunks, key, row.stamp, at, t.points[key])
    {
      BucketedMembers(chunks, lead);
    }
  }

  lemma BucketedMembers(chunks: seq<Chunk>, lead: Collection)
    ensures forall ch :: ch in Bucketed(chunks, lead) <==> ch in chunks
  {
    forall ch
      ensures ch in Bucketed(chunks, lead) <==> ch in chunks
    {
      PickMembers(chunks, InCollection(lead), ch);
      PickMembers(chunks, InCollection(Other(lead)), ch);
    }
  }

  lemma VectorIsClaimed(cfg: Cfg, u: Uri, prior: Option<Row>, c: Content, version: nat, graph: GraphOutcome)
    ensures var action := Classify(prior, c, version);
      forall key :: key in Keys(u, VectorChunks(cfg, u, c, action, graph != ExtractFailed)) ==>
        key.id in NewRow(cfg, u, prior, c, version, action, graph).ids
  {
    var extracted := graph != ExtractFailed;
    assert forall ch :: ch in CommunityChunks(cfg, u, c) && extracted ==> ch in IngestChunks(cfg, u, c, extracted);
  }

  // ------------------------------------------------------------ an ingest, whatever becomes of the graph

  /** The prior row describes this content under this version. */
  predicate Current(prior: Option<Row>, c: Content, version: nat) {
    prior.Some? && prior.value.stamp == Stamp(Sha(c), version)
  }

  /** No id the old row claims and the new one does not is left in the index, in either collection. */
  lemma StaleIdsGo(cfg: Cfg, s: Store, u: Uri, prior: Option<Row>, c: Content, version: nat, at: nat, lead: Collection, graph: GraphOutcome)
    requires prior.Some? && OwnIds(u, prior.value)
    ensures var t := ApplyAll(s, IngestPlan(cfg, prior, u, c, version, at, lead, graph));
      u in t.rows && forall id :: id in prior.value.ids && id !in t.rows[u].ids ==> !Exists(t, id)
  {
    IngestEffect(cfg, s, u, prior, c, version, at, lead, graph);
    VectorIsClaimed(cfg, u, prior, c, version, graph);
  }

  /** What the next pass does with a resource just ingested: it skips it exactly when its graph was
      written whole, or could not be written and was whole before; else it refreshes it. */
  lemma NextPassSkipsIff(cfg: Cfg, s: Store, u: Uri, prior: Option<Row>, c: Content, version: nat, at: nat, lead: Collection, graph: GraphOutcome)
    requires prior.Some? ==> OwnIds(u, prior.value)
    ensures var t := ApplyAll(s, IngestPlan(cfg, prior, u, c, version, at, lead, graph));
      && u in t.rows && t.rows[u].status == Indexed && Current(Some(t.rows[u]), c, version)
      && (Classify(Some(t.rows[u]), c, version) == Skip <==>
            graph == Written || (graph == WriteFailed && prior.Some? && prior.value.graphFresh))
      && (Classify(Some(t.rows[u]), c, version) == Refresh <==>
            graph == WrittenPartially || graph == ExtractFailed || (graph == WriteFailed && (prior == None || !prior.value.graphFresh)))
  {
    IngestEffect(cfg, s, u, prior, c, version, at, lead, graph);
  }

  /** A new or changed content: the row claims exactly the chunks of the content, each is put with its
      kind and stamp, and of everything else just what the old row claimed is gone. */
  lemma ChangedIsRebuilt(cfg: Cfg, s: Store, u: Uri, prior: Option<Row>, c: Content, version: nat, at: nat, lead: Collection, graph: GraphOutcome)
    requires (prior.Some? ==> OwnIds(u, prior.value)) && !Current(prior, c, version)
    ensures Rebuilt(cfg, s, u, prior, c, version, at, graph != ExtractFailed, ApplyAll(s, IngestPlan(cfg, prior, u, c, version, at, lead, graph)))
  {
    var chunks := IngestChunks(cfg, u, c, graph != ExtractFailed);
    var t := ApplyAll(s, IngestPlan(cfg, prior, u, c, version, at, lead, graph));
    IngestEffect(cfg, s, u, prior, c, version, at, lead, graph);
    IngestIdsStand(cfg, u, c, graph != ExtractFailed);
    PointsFrom(cfg, u, c, graph != ExtractFailed, chunks, Stamp(Sha(c), version), at, s, OldIds(prior) - t.rows[u].ids, t);
  }

  ghost predicate Rebuilt(cfg: Cfg, s: Store, u: Uri, prior: Option<Row>, c: Content, version: nat, at: nat, extracted: bool, t: Store) {
    && u in t.rows && t.rows[u].stamp == Stamp(Sha(c), version) && t.rows[u].status == Indexed
    && IdsStand(cfg, u, c, extracted, t.rows[u].ids)
    && PointsAre(cfg, u, c, extracted, Stamp(Sha(c), version), at, s, OldIds(prior) - t.rows[u].ids, t)
  }

  /** An unchanged content whose graph is due: only the community summary is put. The row claims what
      the content has when there is one, else what it claimed before. */
  lemma CurrentIsRefreshed(cfg: Cfg, s: Store, u: Uri, prior: Option<Row>, c: Content, version: nat, at: nat, lead: Collection, graph: GraphOutcome)
    requires Current(prior, c, version) && OwnIds(u, prior.value) && !prior.value.graphFresh
    ensures Refreshed(cfg, s, u, prior.value, c, version, at, graph != ExtractFailed, ApplyAll(s, IngestPlan(cfg, prior, u, c, version, at, lead, graph)))
  {
    var extracted := graph != ExtractFailed;
    IngestEffect(cfg, s, u, prior, c, version, at, lead, graph);
    IngestIdsStand(cfg, u, c, true);
    var t := ApplyAll(s, IngestPlan(cfg, prior, u, c, version, at, lead, graph));
    if extracted && cfg.community(u, c) {
      var community := Chunk(0, 1, CommunitySummary);
      assert CommunityChunks(cfg, u, c) == [community];
      assert KeyOf(u, community) in Keys(u, [community]);
      assert forall key :: key in Keys(u, [community]) ==> key == KeyOf(u, community);
      assert community in IngestChunks(cfg, u, c, true);
      FromChunkIsPutFor(cfg, u, c, true, [community], KeyOf(u, community), Stamp(Sha(c), version), at, t.points[KeyOf(u, community)]);
    }
  }

  ghost predicate Refreshed(cfg: Cfg, s: Store, u: Uri, prior: Row, c: Content, version: nat, at: nat, extracted: bool, t: Store) {
    var community := Key(Text, ChunkId(u, 0, 1));
    var put := extracted && cfg.community(u, c);
    && u in t.rows && t.rows[u].stamp == Stamp(Sha(c), version) && t.rows[u].status == Indexed
    && (if put then IdsStand(cfg, u, c, true, t.rows[u].ids) else t.rows[u].ids == prior.ids)
    && (put ==> community in t.points && PutFor(cfg, u, c, true, community, Stamp(Sha(c), version), at, t.points[community]))
    && (forall key: Key :: key.id.uri == u && !(put && key == community) ==> Untouched(key, s, prior.ids - t.rows[u].ids, t))
  }

  /** Wherever the ingest of a changed content is cut short, the index holds all ids its old row claims
      or all ids of its new content. */
  lemma IngestNeverLoses(cfg: Cfg, s: Store, u: Uri, prior: Option<Row>, c: Content, version: nat, at: nat, lead: Collection, graph: GraphOutcome, k: nat)
    requires prior.Some? && OwnIds(u, prior.value) && !Current(prior, c, version)
    requires forall id :: id in prior.value.ids ==> Exists(s, id)
    requires k <= |IngestPlan(cfg, prior, u, c, version, at, lead, graph)|
    ensures var t := ApplyAll(s, IngestPlan(cfg, prior, u, c, version, at, lead, graph)[..k]);
      || (forall id :: id in prior.value.ids ==> Exists(t, id))
      || (forall id :: id in Ids(u, IngestChunks(cfg, u, c, graph != ExtractFailed)) ==> Exists(t, id))
  {
    var chunks := IngestChunks(cfg, u, c, graph != ExtractFailed);
    var vector, row := Bucketed(chunks, lead), NewRow(cfg, u, prior, c, version, Classify(prior, c, version), graph);
    var drops := Drops(u, prior.value.ids - row.ids);
    var plan := IngestPlan(cfg, prior, u, c, version, at, lead, graph);
    BucketedSame(u, chunks, lead);
    assert plan == Shaped(u, vector != [], vector, at, drops, row);
    if chunks != [] {
      ShapedNeverLoses(s, u, chunks, vector, at, prior.value.ids, prior.value.ids - row.ids, row, k);
    } else {
      assert Ids(u, chunks) == {};
    }
  }

  lemma ShapedNeverLoses(s: Store, u: Uri, chunks: seq<Chunk>, vector: seq<Chunk>, at: nat, before: set<ChunkId>, stale: set<ChunkId>, row: Row, k: nat)
    requires Keys(u, vector) == Keys(u, chunks) && row.ids == Ids(u, chunks) && stale !! row.ids && stale <= before
    requires forall id :: id in before ==> Exists(s, id) && id.uri == u
    requires k <= |Shaped(u, true, vector, at, Drops(u, stale), row)|
    ensures var t := ApplyAll(s, Shaped(u, true, vector, at, Drops(u, stale), row)[..k]);
      (forall id :: id in before ==> Exists(t, id)) || (forall id :: id in row.ids ==> Exists(t, id))
  {
    var drops, plan := Drops(u, stale), Shaped(u, true, vector, at, Drops(u, stale), row);
    var t := ApplyAll(s, plan[..k]);
    if k <= 1 + |vector| {
      BeforeDrops(u, vector, at, drops, row, k);
      WithoutDropsPointsStay(s, plan[..k]);
    } else if k < |plan| {
      var n := k - 1 - |vector|;
      ShapedParts(u, true, vector, at, drops, row);
      AmongDrops(u, vector, at, drops, row, n);
      MidwayEffect(s, u, vector, row.stamp, at, drops, n);
      NewIdsExist(u, chunks, row.ids, drops[..n], drops, stale, t);
    } else {
      assert plan[..k] == plan;
      ShapedEffect(s, u, true, vector, at, drops, row);
      NewIdsExist(u, chunks, row.ids, drops, drops, stale, t);
    }
  }

  lemma BeforeDrops(u: Uri, vector: seq<Chunk>, at: nat, drops: seq<Write>, row: Row, k: nat)
    requires k <= 1 + |vector|
    ensures |Shaped(u, true, vector, at, drops, row)| > k
    ensures forall w :: w in Shaped(u, true, vector, at, drops, row)[..k] ==> !w.Drop?
  {
    ShapedParts(u, true, vector, at, drops, row);
  }

  lemma AmongDrops(u: Uri, vector: seq<Chunk>, at: nat, drops: seq<Write>, row: Row, n: nat)
    requires n <= |drops|
    ensures |Shaped(u, true, vector, at, drops, row)| > 1 + |vector| + n
    ensures Shaped(u, true, vector, at, drops, row)[..1 + |vector| + n] == [Mark(u)] + Puts(u, vector, row.stamp, at) + drops[..n]
  {
  }

  lemma NewIdsExist(u: Uri, chunks: seq<Chunk>, ids: set<ChunkId>, done: seq<Write>, drops: seq<Write>, stale: set<ChunkId>, t: Store)
    requires ids == Ids(u, chunks) && done <= drops && drops == Drops(u, stale) && stale !! ids
    requires forall key :: key in Keys(u, chunks) && !Dropped(done, key) ==> key in t.points
    ensures forall id :: id in ids ==> Exists(t, id)
  {
    forall id | id in ids
      ensures Exists(t, id)
    {
      var ch :| ch in chunks && KeyOf(u, ch).id == id;
      var key := KeyOf(u, ch);
      assert forall w :: w in done ==> w in drops;
      assert !Dropped(done, key);
      assert key == Key(key.collection, id) && (key.collection == Code || key.collection == Text);
    }
  }

  // ------------------------------------------------------------ a pass

  /** The row is there and has lost none of its points. */
  predicate Whole(s: Store, u: Uri) {
    u in s.rows && forall id :: id in s.rows[u].ids ==> Key(Code, id) in s.points || Key(Text, id) in s.points
  }

  lemma SurvivorIsWhole(s: Store, u: Uri)
    ensures Survivor(s, u) == if Whole(s, u) then Some(s.rows[u]) else None
  {
    if u in s.rows {
      assert Missing(s, s.rows[u]) <==> exists id :: id in s.rows[u].ids && !(Key(Code, id) in s.points || Key(Text, id) in s.points);
    }
  }

  /** The store without a row that is not whole. */
  function Reconciled(s: Store, u: Uri): Store {
    if Whole(s, u) then s else s.(rows := s.rows - {u})
  }

  ghost function Found(s: Store, u: Uri): Option<Row> {
    if Whole(s, u) then Some(s.rows[u]) else None
  }

  function OwnWrites(cfg: Cfg, pass: Pass, u: Uri, prior: Option<Row>): seq<Write> {
    if u in pass.source then
      if Classify(prior, pass.source[u], pass.version) == Skip then []
      else IngestPlan(cfg, prior, u, pass.source[u], pass.version, pass.at(u), pass.lead(u), Written)
    else if prior.Some? then RemovalPlan(u, prior.value)
    else []
  }

  lemma ReconciledFirst(cfg: Cfg, s: Store, pass: Pass, u: Uri)
    ensures ApplyAll(s, PassWrites(cfg, s, pass, u)) == ApplyAll(Reconciled(s, u), OwnWrites(cfg, pass, u, Found(s, u)))
  {
    SurvivorIsWhole(s, u);
    var writes, own := PassWrites(cfg, s, pass, u), OwnWrites(cfg, pass, u, Found(s, u));
    if u in s.rows && !Whole(s, u) {
      ApplyOne(s, Forget(u));
      ApplyAllConcat(s, [Forget(u)], own);
      assert writes == [Forget(u)] + own;
    } else {
      assert writes == own;
      assert u !in s.rows ==> s.rows - {u} == s.rows;
    }
  }

  /** The pass does to `u` what its own writes do. */
  lemma PassAt(cfg: Cfg, s: Store, pass: Pass, ws: seq<Write>, u: Uri)
    requires ValidPass(cfg, pass) && OwnRows(s) && DoneFor(cfg, s, pass, ws, u)
    ensures SameAt(u, ApplyAll(s, ws), ApplyAll(Reconciled(s, u), OwnWrites(cfg, pass, u, Found(s, u))))
  {
    CutDeltaIsLocal(cfg, s, pass, ws);
    Projection(s, s, ws, u);
    ReconciledFirst(cfg, s, pass, u);
    assert For(ws, u) == PassWrites(cfg, s, pass, u);
  }

  lemma UntouchedSame(u: Uri, s1: Store, s: Store, t1: Store, t: Store, gone: set<ChunkId>)
    requires s1.points == s.points && SameAt(u, t, t1)
    ensures forall key: Key :: key.id.uri == u && Untouched(key, s1, gone, t1) ==> Untouched(key, s, gone, t)
  {
  }

  lemma RebuiltSame(cfg: Cfg, s1: Store, s: Store, u: Uri, prior: Option<Row>, c: Content, version: nat, at: nat, extracted: bool, t1: Store, t: Store)
    requires Rebuilt(cfg, s1, u, prior, c, version, at, extracted, t1) && s1.points == s.points && SameAt(u, t, t1)
    ensures Rebuilt(cfg, s, u, prior, c, version, at, extracted, t)
  {
    UntouchedSame(u, s1, s, t1, t, OldIds(prior) - t.rows[u].ids);
    assert forall key :: HasChunk(cfg, u, c, extracted, key) ==> key.id.uri == u;
  }

  /** A whole row of this content with a whole graph: nothing at all changes. */
  lemma PassSkips(cfg: Cfg, s: Store, pass: Pass, ws: seq<Write>, u: Uri)
    requires ValidPass(cfg, pass) && OwnRows(s) && DoneFor(cfg, s, pass, ws, u) && u in pass.source
    requires Whole(s, u) && s.rows[u].stamp == Stamp(Sha(pass.source[u]), pass.version) && s.rows[u].graphFresh
    ensures SameAt(u, ApplyAll(s, ws), s)
  {
    var s1 := Reconciled(s, u);
    PassAt(cfg, s, pass, ws, u);
  }

  /** A whole row of this content whose graph is due is refreshed, and its graph is whole then. */
  lemma PassRefreshes(cfg: Cfg, s: Store, pass: Pass, ws: seq<Write>, u: Uri)
    requires ValidPass(cfg, pass) && OwnRows(s) && DoneFor(cfg, s, pass, ws, u) && u in pass.source
    requires Whole(s, u) && s.rows[u].stamp == Stamp(Sha(pass.source[u]), pass.version) && !s.rows[u].graphFresh
    ensures var t := ApplyAll(s, ws);
      Refreshed(cfg, s, u, s.rows[u], pass.source[u], pass.version, pass.at(u), true, t) && t.rows[u].graphFresh
  {
    var s1 := Reconciled(s, u);
    PassAt(cfg, s, pass, ws, u);
    var c, prior := pass.source[u], Some(s.rows[u]);
    var t1 := ApplyAll(s1, IngestPlan(cfg, prior, u, c, pass.version, pass.at(u), pass.lead(u), Written));
    CurrentIsRefreshed(cfg, s1, u, prior, c, pass.version, pass.at(u), pass.lead(u), Written);
    NextPassSkipsIff(cfg, s1, u, prior, c, pass.version, pass.at(u), pass.lead(u), Written);
    RefreshedSame(cfg, s1, s, u, s.rows[u], c, pass.version, pass.at(u), true, t1, ApplyAll(s, ws));
  }

  lemma RefreshedSame(cfg: Cfg, s1: Store, s: Store, u: Uri, prior: Row, c: Content, version: nat, at: nat, extracted: bool, t1: Store, t: Store)
    requires Refreshed(cfg, s1, u, prior, c, version, at, extracted, t1) && s1.points == s.points && SameAt(u, t, t1)
    ensures Refreshed(cfg, s, u, prior, c, version, at, extracted, t)
  {
    UntouchedSame(u, s1, s, t1, t, prior.ids - t.rows[u].ids);
  }

  /** Everything else in the source is rebuilt: what is new, what has changed, and what has lost a
      point, however little of its content has changed. */
  lemma PassRebuilds(cfg: Cfg, s: Store, pass: Pass, ws: seq<Write>, u: Uri)
    requires ValidPass(cfg, pass) && OwnRows(s) && DoneFor(cfg, s, pass, ws, u) && u in pass.source
    requires !(Whole(s, u) && s.rows[u].stamp == Stamp(Sha(pass.source[u]), pass.version))
    ensures var t := ApplyAll(s, ws);
      Rebuilt(cfg, s, u, Found(s, u), pass.source[u], pass.version, pass.at(u), true, t) && t.rows[u].graphFresh
  {
    var s1 := Reconciled(s, u);
    PassAt(cfg, s, pass, ws, u);
    var c, prior := pass.source[u], Found(s, u);
    var t1 := ApplyAll(s1, IngestPlan(cfg, prior, u, c, pass.version, pass.at(u), pass.lead(u), Written));
    ChangedIsRebuilt(cfg, s1, u, prior, c, pass.version, pass.at(u), pass.lead(u), Written);
    NextPassSkipsIff(cfg, s1, u, prior, c, pass.version, pass.at(u), pass.lead(u), Written);
    RebuiltSame(cfg, s1, s, u, prior, c, pass.version, pass.at(u), true, t1, ApplyAll(s, ws));
  }

  /** What is gone from the source goes: its row, and every point a whole row claimed. */
  lemma PassRemoves(cfg: Cfg, s: Store, pass: Pass, ws: seq<Write>, u: Uri)
    requires ValidPass(cfg, pass) && OwnRows(s) && DoneFor(cfg, s, pass, ws, u) && u !in pass.source
    ensures var t := ApplyAll(s, ws);
      && u !in t.rows
      && forall key: Key :: key.id.uri == u ==> Untouched(key, s, OldIds(Found(s, u)), t)
  {
    var s1 := Reconciled(s, u);
    PassAt(cfg, s, pass, ws, u);
    if Whole(s, u) {
      RemovalEffect(s1, u, s.rows[u]);
    }
    UntouchedSame(u, s1, s, ApplyAll(s1, OwnWrites(cfg, pass, u, Found(s, u))), ApplyAll(s, ws), OldIds(Found(s, u)));
  }

  lemma RemovalEffect(s: Store, u: Uri, row: Row)
    requires OwnIds(u, row)
    ensures var t := ApplyAll(s, RemovalPlan(u, row)); u !in t.rows && forall key :: Untouched(key, s, row.ids, t)
  {
    var drops := Drops(u, row.ids);
    ApplyAllConcat(s, drops, [Forget(u)]);
    DropsEffect(s, u, drops);
    ApplyOne(ApplyAll(s, drops), Forget(u));
    forall key
      ensures Dropped(drops, key) <==> key.id in row.ids
    {
      DroppedByDrops(u, row.ids, key);
    }
  }

  /** After a pass nothing a whole row of its source key claimed is left unclaimed in the index. */
  lemma PassLeavesNothingStale(cfg: Cfg, s: Store, pass: Pass, ws: seq<Write>, u: Uri, id: ChunkId)
    requires ValidPass(cfg, pass) && OwnRows(s) && DoneFor(cfg, s, pass, ws, u)
    requires Whole(s, u) && id in s.rows[u].ids
    ensures var t := ApplyAll(s, ws); (u in t.rows && id in t.rows[u].ids) || !Exists(t, id)
  {
    var t, c := ApplyAll(s, ws), if u in pass.source then pass.source[u] else "";
    if u !in pass.source {
      PassRemoves(cfg, s, pass, ws, u);
    } else {
      PassAt(cfg, s, pass, ws, u);
      if Classify(Some(s.rows[u]), c, pass.version) != Skip {
        StaleIdsGo(cfg, s, u, Some(s.rows[u]), c, pass.version, pass.at(u), pass.lead(u), Written);
      }
    }
  }

  // ------------------------------------------------------------ a reindex

  /** A reindex rebuilds its resource too, without the synthetic chunks. What it deletes is what the
      index holds of the resource, whatever the row claims; the graph status stays. */
  lemma ReindexRebuilds(cfg: Cfg, s: Store, u: Uri, c: Content, version: nat, at: nat)
    ensures var t := ApplyAll(s, ReindexPlan(cfg, s, u, c, version, at));
      && u in t.rows && t.rows[u].stamp == Stamp(Sha(c), version) && t.rows[u].status == Indexed
      && t.rows[u].graphFresh == (u in s.rows && s.rows[u].graphFresh)
      && IdsStand(cfg, u, c, false, t.rows[u].ids)
      && PointsAre(cfg, u, c, false, Stamp(Sha(c), version), at, s, ResourceIds(s, u) - t.rows[u].ids, t)
      && (forall v :: v != u ==> SameAt(v, t, s))
  {
    var raw, t := RawChunks(cfg, u, c), ApplyAll(s, ReindexPlan(cfg, s, u, c, version, at));
    ReindexEffect(cfg, s, u, c, version, at);
    assert IngestChunks(cfg, u, c, false) == raw;
    IngestIdsStand(cfg, u, c, false);
    ReindexUntouched(s, u, raw, Ids(u, raw), t);
    KeysClaimed(u, raw);
    forall v | v != u
      ensures SameAt(v, t, s)
    {
    }
    PointsFrom(cfg, u, c, false, raw, Stamp(Sha(c), version), at, s, ResourceIds(s, u) - Ids(u, raw), t);
  }

  lemma ReindexEffect(cfg: Cfg, s: Store, u: Uri, c: Content, version: nat, at: nat)
    ensures var raw, t := RawChunks(cfg, u, c), ApplyAll(s, ReindexPlan(cfg, s, u, c, version, at));
      var row := Row(Stamp(Sha(c), version), Ids(u, raw), Indexed, u in s.rows && s.rows[u].graphFresh);
      && t.rows == s.rows[u := row]
      && (forall key :: key in t.points <==> key in Keys(u, raw) || (key in s.points && (key.id.uri == u ==> key.id in row.ids)))
      && (forall key :: key in Keys(u, raw) ==> FromChunk(u, raw, key, row.stamp, at, t.points[key]))
      && (forall key :: key in t.points && key !in Keys(u, raw) ==> t.points[key] == s.points[key])
  {
    var raw := RawChunks(cfg, u, c);
    var chunks, drops, row := ReindexPlanShape(cfg, s, u, c, version, at);
    ReindexRow(cfg, s, u, c, version, at);
    ShapedParts(u, true, chunks, at, drops, row);
    ShapedEffect(s, u, true, chunks, at, drops, row);
    InOrderMembers(raw);
    KeysClaimed(u, raw);
  }

  lemma KeysClaimed(u: Uri, chunks: seq<Chunk>)
    ensures forall key :: key in Keys(u, chunks) ==> key.id in Ids(u, chunks) && key.id.uri == u
  {
  }

  lemma ReindexUntouched(s: Store, u: Uri, raw: seq<Chunk>, ids: set<ChunkId>, t: Store)
    requires forall key :: key in t.points <==> key in Keys(u, raw) || (key in s.points && (key.id.uri == u ==> key.id in ids))
    requires forall key :: key in t.points && key !in Keys(u, raw) ==> t.points[key] == s.points[key]
    ensures forall key: Key :: key.id.uri == u && key !in Keys(u, raw) ==> Untouched(key, s, ResourceIds(s, u) - ids, t)
  {
    forall key: Key | key.id.uri == u && key in s.points
      ensures key.id in ResourceIds(s, u)
    {
      assert key.id in IdsIn(s, u, key.collection);
    }
  }

  lemma InOrderMembers(chunks: seq<Chunk>)
    ensures forall ch :: ch in InOrder(chunks) <==> ch in chunks
  {
    if chunks != [] {
      BucketedMembers(chunks, CollectionOf(chunks[0]));
    }
  }

  lemma ReindexRow(cfg: Cfg, s: Store, u: Uri, c: Content, version: nat, at: nat)
    ensures var plan := ReindexPlan(cfg, s, u, c, version, at);
      plan[|plan| - 1] == Record(u, Row(Stamp(Sha(c), version), Ids(u, RawChunks(cfg, u, c)), Indexed, u in s.rows && s.rows[u].graphFresh))
  {
  }

  // ------------------------------------------------------------ an enrichment

  /** An enrichment puts the points of the content again, as the reindex does, and does nothing else. */
  lemma EnrichmentPuts(cfg: Cfg, s: Store, u: Uri, c: Content, version: nat, at: nat)
    ensures var t := ApplyAll(s, EnrichPlan(cfg, u, c, version, at));
      t.rows == s.rows && PointsAre(cfg, u, c, false, Stamp(Sha(c), version), at, s, {}, t)
  {
    var raw, stamp := RawChunks(cfg, u, c), Stamp(Sha(c), version);
    var t := ApplyAll(s, EnrichPlan(cfg, u, c, version, at));
    PutsEffect(s, u, InOrder(raw), stamp, at);
    InOrderMembers(raw);
    assert IngestChunks(cfg, u, c, false) == raw;
    PointsFrom(cfg, u, c, false, InOrder(raw), stamp, at, s, {}, t);
  }
}
