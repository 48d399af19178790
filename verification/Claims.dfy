/** Interleaved ingest, reindex, enrichment and removal, with a crash possible anywhere: the system
    and the invariant that ties what a manifest row claims to what the index holds. */
module Claims {
  import opened Stores
  import opened Plans

  // ------------------------------------------------------------ the system

  datatype Job =
    | Ingest(content: Content, version: nat, at: nat, lead: Collection, graph: GraphOutcome)
    | Reindex(content: Content, version: nat, at: nat)
    | Remove
    | Enrich(content: Content, version: nat, at: nat)
    | DropMissing

  /** `tasks` holds the writes each running operation still has to do. `exposed` remembers the
      resources whose points were dropped under a row still marked indexed. */
  datatype Sys = Sys(store: Store, tasks: map<Uri, seq<Write>>, exposed: set<Uri>)

  const INIT := Sys(EMPTY, map[], {})

  datatype Step =
    | Begin(uri: Uri, job: Job)
    | Advance(uri: Uri)
    | Abort(uri: Uri)
    | LateEnrich(uri: Uri, content: Content, index: nat, version: nat, at: nat)

  function Prior(s: Store, u: Uri): Option<Row> {
    if u in s.rows then Some(s.rows[u]) else None
  }

  /** The manifest reconciliation at the start of a run lets no row through that has lost a point. */
  predicate Missing(s: Store, row: Row) {
    exists id :: id in row.ids && !Exists(s, id)
  }

  predicate CanBegin(cfg: Cfg, s: Store, u: Uri, job: Job) {
    match job
    case Ingest(c, version, _, _, _) =>
      !cfg.daemon(u.owner) && Classify(Prior(s, u), c, version) != Skip
      && (u in s.rows ==> !Missing(s, s.rows[u]))
    case Reindex(_, _, _) => cfg.daemon(u.owner)
    case Remove => u in s.rows
    case Enrich(c, _, _) => u in s.rows && s.rows[u].stamp.hash == Sha(c)
    case DropMissing => u in s.rows && Missing(s, s.rows[u])
  }

  function PlanOf(cfg: Cfg, s: Store, u: Uri, job: Job): seq<Write> {
    match job
    case Ingest(c, version, at, lead, graph) => IngestPlan(cfg, Prior(s, u), u, c, version, at, lead, graph)
    case Reindex(c, version, at) => ReindexPlan(cfg, s, u, c, version, at)
    case Remove => if u in s.rows then RemovalPlan(u, s.rows[u]) else []
    case Enrich(c, version, at) => EnrichPlan(cfg, u, c, version, at)
    case DropMissing => [Forget(u)]
  }

  /** Operations on different resources interleave freely; two on one resource do not overlap,
      except for enrichment writes that arrive late (`LateEnrich`). */
  predicate Enabled(cfg: Cfg, sys: Sys, step: Step) {
    match step
    case Begin(u, job) => u !in sys.tasks && CanBegin(cfg, sys.store, u, job)
    case Advance(u) => u in sys.tasks
    case Abort(u) => u in sys.tasks
    case LateEnrich(u, c, i, version, at) => i < |EnrichPlan(cfg, u, c, version, at)|
  }

  /** A drop exposes the row unless the row is absent or marked pending; writing or deleting
      the row ends the exposure. */
  function Exposure(s: Store, exposed: set<Uri>, w: Write): set<Uri> {
    match w
    case Drop(_, u, _) => if u in s.rows && s.rows[u].status == Indexed then exposed + {u} else exposed
    case Record(u, _) => exposed - {u}
    case Forget(u) => exposed - {u}
    case _ => exposed
  }

  function Perform(sys: Sys, w: Write): Sys {
    sys.(store := Apply(sys.store, w), exposed := Exposure(sys.store, sys.exposed, w))
  }

  /** A step that is not enabled does nothing. */
  function After(cfg: Cfg, sys: Sys, step: Step): Sys {
    if !Enabled(cfg, sys, step) then sys else
    match step
    case Begin(u, job) => sys.(tasks := sys.tasks[u := PlanOf(cfg, sys.store, u, job)])
    case Advance(u) =>
      var todo := sys.tasks[u];
      if todo == [] then sys.(tasks := sys.tasks - {u})
      else Perform(sys, todo[0]).(tasks := sys.tasks[u := todo[1..]])
    case Abort(u) => sys.(tasks := sys.tasks - {u})
    case LateEnrich(u, c, i, version, at) => Perform(sys, EnrichPlan(cfg, u, c, version, at)[i])
  }

  // ------------------------------------------------------------ backed claims

  /** The points a row stands for. */
  function ClaimKeys(cfg: Cfg, u: Uri, row: Row): set<Key> {
    match row.stamp.hash
    case Blank => {}
    case Sha(c) => set ch | ch in Wanted(cfg, u, c) && KeyOf(u, ch).id in row.ids :: KeyOf(u, ch)
  }

  /** How much of its row's stamp a point is asked to carry. */
  datatype Level = Present | Hashed | Full

  predicate Agrees(a: Stamp, b: Stamp, level: Level) {
    match level
    case Present => true
    case Hashed => a.hash == b.hash
    case Full => a == b
  }

  predicate Stamped(s: Store, key: Key, stamp: Stamp, level: Level) {
    key in s.points && Agrees(s.points[key].stamp, stamp, level)
  }

  predicate Backed(cfg: Cfg, s: Store, u: Uri, row: Row, level: Level) {
    forall key :: key in ClaimKeys(cfg, u, row) ==> Stamped(s, key, row.stamp, level)
  }

  /** A row claims chunks of its own content; a row that needs no graph refresh claims them all. */
  predicate WellShaped(cfg: Cfg, u: Uri, row: Row) {
    match row.stamp.hash
    case Blank => row == STUB
    case Sha(c) =>
      row.ids <= Ids(u, Wanted(cfg, u, c))
      && (row.graphFresh ==> row.ids == Ids(u, Wanted(cfg, u, c)))
  }

  /** What every claimed id means to a reader: the index holds it, with as much of the row's stamp. */
  predicate IdsBacked(s: Store, row: Row, level: Level) {
    forall id :: id in row.ids ==> exists coll :: Stamped(s, Key(coll, id), row.stamp, level)
  }

  lemma BackedMeansIdsBacked(cfg: Cfg, s: Store, u: Uri, row: Row, level: Level)
    requires WellShaped(cfg, u, row) && Backed(cfg, s, u, row, level)
    ensures IdsBacked(s, row, level)
  {
    forall id | id in row.ids
      ensures exists coll :: Stamped(s, Key(coll, id), row.stamp, level)
    {
      var c := row.stamp.hash.content;
      var ch :| ch in Wanted(cfg, u, c) && KeyOf(u, ch).id == id;
      var key := KeyOf(u, ch);
      assert key in ClaimKeys(cfg, u, row);
      assert Stamped(s, Key(key.collection, id), row.stamp, level);
    }
  }

  // ------------------------------------------------------------ the invariant

  /** Among the first `n` writes of `todo`, one puts this point. */
  predicate WillPut(todo: seq<Write>, n: nat, key: Key) {
    exists j :: 0 <= j < n && j < |todo| && todo[j].Put? && todo[j].key == key
  }

  /** The row a task is about to record will be backed when it gets there. */
  predicate RecordOk(cfg: Cfg, s: Store, u: Uri, todo: seq<Write>, row: Row, level: Level)
    requires |todo| > 0
  {
    var n := |todo| - 1;
    && row.status == Indexed
    && row.stamp.hash != Blank
    && WellShaped(cfg, u, row)
    && (forall key :: key in ClaimKeys(cfg, u, row) ==>
          Stamped(s, key, row.stamp, level) || WillPut(todo, n, key))
    && (forall j :: 0 <= j < n && todo[j].Drop? ==> todo[j].ids !! row.ids)
    && (forall j :: 0 <= j < n && todo[j].Put? ==> todo[j].point.stamp == row.stamp)
  }

  /** Overwriting a point is harmless while the row is pending or when the stamp stays. */
  predicate PutOk(s: Store, u: Uri, stamp: Stamp, level: Level) {
    u !in s.rows || s.rows[u].status == Pending || Agrees(stamp, s.rows[u].stamp, level)
  }

  predicate Local(w: Write) {
    w.Drop? ==> forall id :: id in w.ids ==> id.uri == w.uri
  }

  /** Writes of one resource; a mark comes first, a row's write or deletion last. */
  predicate TaskShape(u: Uri, todo: seq<Write>) {
    && (forall j :: 0 <= j < |todo| ==> Target(todo[j]) == u && Local(todo[j]))
    && (forall j :: 0 <= j < |todo| && (todo[j].Record? || todo[j].Forget?) ==> j == |todo| - 1)
    && (forall j :: 0 <= j < |todo| && todo[j].Mark? ==> j == 0)
  }

  predicate TaskOk(cfg: Cfg, s: Store, u: Uri, todo: seq<Write>, level: Level) {
    && TaskShape(u, todo)
    && (forall j :: 0 <= j < |todo| && todo[j].Put? && !todo[0].Mark? ==> PutOk(s, u, todo[j].point.stamp, level))
    && (|todo| > 0 && todo[|todo| - 1].Record? ==> RecordOk(cfg, s, u, todo, todo[|todo| - 1].row, level))
  }

  predicate RowOk(cfg: Cfg, sys: Sys, u: Uri, level: Level)
    requires u in sys.store.rows
  {
    var row := sys.store.rows[u];
    && WellShaped(cfg, u, row)
    && (row.status == Indexed && u !in sys.exposed ==> Backed(cfg, sys.store, u, row, level))
  }

  predicate Inv(cfg: Cfg, sys: Sys, level: Level) {
    && (forall u :: u in sys.store.rows ==> RowOk(cfg, sys, u, level))
    && (forall u :: u in sys.tasks ==> TaskOk(cfg, sys.store, u, sys.tasks[u], level))
  }

  // ------------------------------------------------------------ one write

  lemma RestRecordOk(cfg: Cfg, s: Store, u: Uri, todo: seq<Write>, row: Row, level: Level)
    requires |todo| > 1 && RecordOk(cfg, s, u, todo, row, level)
    requires !todo[0].Record? && !todo[0].Forget?
    ensures RecordOk(cfg, Apply(s, todo[0]), u, todo[1..], row, level)
  {
    var rest, n := todo[1..], |todo| - 1;
    assert forall j :: 0 <= j < n ==> rest[j] == todo[j + 1];
    forall key | key in ClaimKeys(cfg, u, row)
      ensures Stamped(Apply(s, todo[0]), key, row.stamp, level) || WillPut(rest, n - 1, key)
    {
      if Stamped(s, key, row.stamp, level) {
        assert todo[0].Drop? ==> key.id !in todo[0].ids;
      } else {
        var j :| 0 <= j < n && todo[j].Put? && todo[j].key == key;
        if j > 0 {
          assert rest[j - 1].Put? && rest[j - 1].key == key;
        }
      }
    }
  }

  lemma RestShape(u: Uri, todo: seq<Write>)
    requires todo != [] && TaskShape(u, todo)
    ensures TaskShape(u, todo[1..])
  {
    assert forall j :: 0 <= j < |todo| - 1 ==> todo[1..][j] == todo[j + 1];
  }

  lemma RestPutOk(s: Store, u: Uri, todo: seq<Write>, j: nat, level: Level)
    requires j < |todo| - 1 && TaskShape(u, todo) && todo[j + 1].Put?
    requires !todo[0].Mark? ==> PutOk(s, u, todo[j + 1].point.stamp, level)
    ensures PutOk(Apply(s, todo[0]), u, todo[j + 1].point.stamp, level)
  {
    assert Target(todo[0]) == u;
  }

  lemma RestTaskOk(cfg: Cfg, s: Store, u: Uri, todo: seq<Write>, level: Level)
    requires todo != [] && TaskOk(cfg, s, u, todo, level)
    ensures TaskOk(cfg, Apply(s, todo[0]), u, todo[1..], level)
  {
    var rest := todo[1..];
    RestShape(u, todo);
    forall j | 0 <= j < |rest| && rest[j].Put?
      ensures PutOk(Apply(s, todo[0]), u, rest[j].point.stamp, level)
    {
      RestPutOk(s, u, todo, j, level);
    }
    if rest != [] && rest[|rest| - 1].Record? {
      RestRecordOk(cfg, s, u, todo, rest[|rest| - 1].row, level);
    }
  }

  /** Performing the head of a sound task keeps its own row sound. */
  lemma HeadKeepsRow(cfg: Cfg, sys: Sys, u: Uri, todo: seq<Write>, level: Level)
    requires todo != [] && TaskOk(cfg, sys.store, u, todo, level)
    requires u in sys.store.rows ==> RowOk(cfg, sys, u, level)
    ensures var next := Perform(sys, todo[0]); u in next.store.rows ==> RowOk(cfg, next, u, level)
  {
    var w := todo[0];
    assert Target(w) == u;
    match w
    case Mark(_) =>
    case Put(_, _) => assert PutOk(sys.store, u, w.point.stamp, level);
    case Drop(_, _, _) =>
    case Record(_, _) => assert RecordOk(cfg, sys.store, u, todo, w.row, level);
    case Forget(_) =>
  }

  /** A write for one resource does not touch what another resource relies on. */
  lemma Frame(cfg: Cfg, sys: Sys, w: Write, u: Uri, level: Level)
    requires Target(w) != u && Local(w)
    ensures var next := Perform(sys, w);
      && (u in sys.store.rows <==> u in next.store.rows)
      && (u in sys.store.rows && RowOk(cfg, sys, u, level) ==> RowOk(cfg, next, u, level))
      && (forall todo: seq<Write> :: TaskOk(cfg, sys.store, u, todo, level) ==> TaskOk(cfg, next.store, u, todo, level))
  {
    var next := Perform(sys, w);
    assert u in sys.store.rows ==> u in next.store.rows && next.store.rows[u] == sys.store.rows[u];
    assert forall key: Key, stamp :: (key.id.uri == u && Stamped(sys.store, key, stamp, level)
                                      ==> Stamped(next.store, key, stamp, level));
    forall todo: seq<Write> | TaskOk(cfg, sys.store, u, todo, level)
      ensures TaskOk(cfg, next.store, u, todo, level)
    {
    }
  }

  // ------------------------------------------------------------ sound plans

  /** The common shape of a plan that ends by recording a row. */
  function Shaped(u: Uri, marked: bool, chunks: seq<Chunk>, at: nat, drops: seq<Write>, row: Row): seq<Write> {
    (if marked then [Mark(u)] else []) + Puts(u, chunks, row.stamp, at) + drops + [Record(u, row)]
  }

  lemma ShapedParts(u: Uri, marked: bool, chunks: seq<Chunk>, at: nat, drops: seq<Write>, row: Row)
    ensures var todo := Shaped(u, marked, chunks, at, drops, row);
      var m := if marked then 1 else 0;
      && |todo| == m + |chunks| + |drops| + 1
      && todo[|todo| - 1] == Record(u, row)
      && (marked ==> todo[0] == Mark(u))
      && (forall j :: m <= j < m + |chunks| ==> todo[j].Put? && todo[j].key == KeyOf(u, chunks[j - m]) && todo[j].point.stamp == row.stamp)
      && (forall j :: m + |chunks| <= j < |todo| - 1 ==> todo[j] == drops[j - m - |chunks|])
  {
    var todo := Shaped(u, marked, chunks, at, drops, row);
    var m := if marked then 1 else 0;
    var puts := Puts(u, chunks, row.stamp, at);
    assert forall j :: m <= j < m + |chunks| ==> todo[j] == puts[j - m];
  }

  lemma ShapedWillPut(u: Uri, marked: bool, chunks: seq<Chunk>, at: nat, drops: seq<Write>, row: Row, key: Key)
    requires key in Keys(u, chunks)
    ensures var todo := Shaped(u, marked, chunks, at, drops, row); WillPut(todo, |todo| - 1, key)
  {
    var todo := Shaped(u, marked, chunks, at, drops, row);
    var m := if marked then 1 else 0;
    ShapedParts(u, marked, chunks, at, drops, row);
    var ch :| ch in chunks && KeyOf(u, ch) == key;
    var i :| 0 <= i < |chunks| && chunks[i] == ch;
    assert todo[m + i].Put? && todo[m + i].key == key;
  }

  lemma ShapedTaskOk(cfg: Cfg, s: Store, u: Uri, marked: bool, chunks: seq<Chunk>, at: nat, drops: seq<Write>, row: Row, level: Level)
    requires chunks != [] ==> marked
    requires forall w :: w in drops ==> w.Drop? && w.uri == u && w.ids !! row.ids && forall id :: id in w.ids ==> id.uri == u
    requires row.status == Indexed && row.stamp.hash != Blank && WellShaped(cfg, u, row)
    requires forall key :: key in ClaimKeys(cfg, u, row) ==> Stamped(s, key, row.stamp, level) || key in Keys(u, chunks)
    ensures TaskOk(cfg, s, u, Shaped(u, marked, chunks, at, drops, row), level)
  {
    var todo := Shaped(u, marked, chunks, at, drops, row);
    var m := if marked then 1 else 0;
    ShapedParts(u, marked, chunks, at, drops, row);
    forall j | m + |chunks| <= j < |todo| - 1
      ensures todo[j].Drop? && todo[j].uri == u && todo[j].ids !! row.ids && forall id :: id in todo[j].ids ==> id.uri == u
    {
      assert todo[j] in drops;
    }
    forall key | key in ClaimKeys(cfg, u, row) && !Stamped(s, key, row.stamp, level)
      ensures WillPut(todo, |todo| - 1, key)
    {
      ShapedWillPut(u, marked, chunks, at, drops, row, key);
    }
    assert RecordOk(cfg, s, u, todo, row, level);
  }

  lemma WantedIsIngest(cfg: Cfg, u: Uri, c: Content)
    requires !cfg.daemon(u.owner)
    ensures Wanted(cfg, u, c) == RawChunks(cfg, u, c) + SummaryChunks(cfg, u, c) + CommunityChunks(cfg, u, c)
    ensures forall extracted :: Ids(u, IngestChunks(cfg, u, c, extracted)) <= Ids(u, Wanted(cfg, u, c))
  {
    var raw := RawChunks(cfg, u, c);
    assert Wanted(cfg, u, c) == raw + SummaryChunks(cfg, u, c) + CommunityChunks(cfg, u, c);
    assert forall ch :: ch in IngestChunks(cfg, u, c, false) ==> ch in raw;
    assert forall extracted, ch :: ch in IngestChunks(cfg, u, c, extracted) ==> ch in Wanted(cfg, u, c);
  }

  /** A wanted chunk whose id is among the ids of an ingest's chunks is one of those chunks. */
  lemma IdsPickChunks(cfg: Cfg, u: Uri, c: Content, extracted: bool, ch: Chunk)
    requires !cfg.daemon(u.owner)
    requires ch in Wanted(cfg, u, c) && KeyOf(u, ch).id in Ids(u, IngestChunks(cfg, u, c, extracted))
    ensures ch in IngestChunks(cfg, u, c, extracted)
  {
    WantedIsIngest(cfg, u, c);
    if !extracted {
      var raw := RawChunks(cfg, u, c);
      var other :| other in IngestChunks(cfg, u, c, false) && KeyOf(u, other).id == KeyOf(u, ch).id;
      assert other in raw && other.first >= 1;
      assert ch in SummaryChunks(cfg, u, c) + CommunityChunks(cfg, u, c) ==> ch.first == 0;
    }
  }

  /** A refresh writes a row it did not rebuild: safe when the prior row claims every chunk but the
      community summary, and the index backs that row. */
  predicate SafeRefresh(cfg: Cfg, s: Store, u: Uri, c: Content, level: Level) {
    u in s.rows
    && Ids(u, RawChunks(cfg, u, c) + SummaryChunks(cfg, u, c)) <= s.rows[u].ids
    && Backed(cfg, s, u, s.rows[u], level)
  }

  predicate StepSafe(cfg: Cfg, sys: Sys, step: Step, level: Level) {
    match step
    case LateEnrich(_, _, _, _, _) => level == Present
    case Begin(u, Enrich(_, version, _)) => u in sys.store.rows && level == Full ==> version == sys.store.rows[u].stamp.version
    case Begin(u, Ingest(c, version, _, _, _)) =>
      Classify(Prior(sys.store, u), c, version) == Refresh ==> SafeRefresh(cfg, sys.store, u, c, level)
    case _ => true
  }

  lemma RefreshRowOk(cfg: Cfg, s: Store, u: Uri, c: Content, version: nat, graph: GraphOutcome, level: Level)
    requires !cfg.daemon(u.owner) && u in s.rows && WellShaped(cfg, u, s.rows[u])
    requires Classify(Prior(s, u), c, version) == Refresh && SafeRefresh(cfg, s, u, c, level)
    ensures var row := NewRow(cfg, u, Prior(s, u), c, version, Refresh, graph);
      var vector := VectorChunks(cfg, u, c, Refresh, graph != ExtractFailed);
      && WellShaped(cfg, u, row)
      && forall key :: key in ClaimKeys(cfg, u, row) ==> Stamped(s, key, row.stamp, level) || key in Keys(u, vector)
  {
    var prior := s.rows[u];
    var extracted := graph != ExtractFailed;
    var row := NewRow(cfg, u, Prior(s, u), c, version, Refresh, graph);
    var vector := VectorChunks(cfg, u, c, Refresh, extracted);
    var wanted := Wanted(cfg, u, c);
    WantedIsIngest(cfg, u, c);
    if vector == [] && extracted {
      assert wanted == RawChunks(cfg, u, c) + SummaryChunks(cfg, u, c);
      assert row.ids == Ids(u, wanted);
    }
    forall key | key in ClaimKeys(cfg, u, row)
      ensures Stamped(s, key, row.stamp, level) || key in Keys(u, vector)
    {
      var ch :| ch in wanted && KeyOf(u, ch).id in row.ids && KeyOf(u, ch) == key;
      if vector != [] && ch in CommunityChunks(cfg, u, c) {
        assert key in Keys(u, vector);
      } else if vector != [] {
        assert ch in RawChunks(cfg, u, c) + SummaryChunks(cfg, u, c);
        assert key.id in prior.ids;
        assert key in ClaimKeys(cfg, u, prior);
      } else {
        assert key in ClaimKeys(cfg, u, prior);
      }
    }
  }

  lemma IngestRowOk(cfg: Cfg, prior: Option<Row>, u: Uri, c: Content, version: nat, graph: GraphOutcome)
    requires !cfg.daemon(u.owner)
    requires Classify(prior, c, version) in {Added, Updated}
    requires graph == WriteFailed && prior.Some? ==> WellShaped(cfg, u, prior.value)
    ensures var row := NewRow(cfg, u, prior, c, version, Classify(prior, c, version), graph);
      var chunks := IngestChunks(cfg, u, c, graph != ExtractFailed);
      WellShaped(cfg, u, row) && ClaimKeys(cfg, u, row) <= Keys(u, chunks)
  {
    var row := NewRow(cfg, u, prior, c, version, Classify(prior, c, version), graph);
    var extracted := graph != ExtractFailed;
    WantedIsIngest(cfg, u, c);
    forall key | key in ClaimKeys(cfg, u, row)
      ensures key in Keys(u, IngestChunks(cfg, u, c, extracted))
    {
      var ch :| ch in Wanted(cfg, u, c) && KeyOf(u, ch).id in row.ids && KeyOf(u, ch) == key;
      IdsPickChunks(cfg, u, c, extracted, ch);
    }
  }

  lemma IngestTaskOk(cfg: Cfg, s: Store, u: Uri, c: Content, version: nat, at: nat, lead: Collection, graph: GraphOutcome, level: Level)
    requires !cfg.daemon(u.owner) && Classify(Prior(s, u), c, version) != Skip
    requires u in s.rows ==> WellShaped(cfg, u, s.rows[u])
    requires Classify(Prior(s, u), c, version) == Refresh ==> SafeRefresh(cfg, s, u, c, level)
    ensures TaskOk(cfg, s, u, IngestPlan(cfg, Prior(s, u), u, c, version, at, lead, graph), level)
  {
    var prior, action := Prior(s, u), Classify(Prior(s, u), c, version);
    var vector := Bucketed(VectorChunks(cfg, u, c, action, graph != ExtractFailed), lead);
    var row := NewRow(cfg, u, prior, c, version, action, graph);
    BucketedSame(u, VectorChunks(cfg, u, c, action, graph != ExtractFailed), lead);
    if action == Refresh {
      RefreshRowOk(cfg, s, u, c, version, graph, level);
    } else {
      IngestRowOk(cfg, prior, u, c, version, graph);
    }
    var stale := (if prior.Some? then prior.value.ids else {}) - row.ids;
    ShapedTaskOk(cfg, s, u, vector != [], vector, at, Drops(u, stale), row, level);
    assert IngestPlan(cfg, prior, u, c, version, at, lead, graph) == Shaped(u, vector != [], vector, at, Drops(u, stale), row);
  }

  lemma ReindexTaskOk(cfg: Cfg, s: Store, u: Uri, c: Content, version: nat, at: nat, level: Level)
    requires cfg.daemon(u.owner)
    ensures TaskOk(cfg, s, u, ReindexPlan(cfg, s, u, c, version, at), level)
  {
    var raw := RawChunks(cfg, u, c);
    var chunks := InOrder(raw);
    if raw != [] {
      BucketedSame(u, raw, CollectionOf(raw[0]));
    }
    var ids := Ids(u, raw);
    var drops := DropStale(u, Code, IdsIn(s, u, Code) - ids) + DropStale(u, Text, IdsIn(s, u, Text) - ids);
    var row := Row(Stamp(Sha(c), version), ids, Indexed, u in s.rows && s.rows[u].graphFresh);
    ShapedTaskOk(cfg, s, u, true, chunks, at, drops, row, level);
    assert ReindexPlan(cfg, s, u, c, version, at) == Shaped(u, true, chunks, at, drops, row);
  }

  lemma BeginTaskOk(cfg: Cfg, s: Store, u: Uri, job: Job, level: Level)
    requires CanBegin(cfg, s, u, job)
    requires u in s.rows ==> WellShaped(cfg, u, s.rows[u])
    requires job.Ingest? && Classify(Prior(s, u), job.content, job.version) == Refresh ==> SafeRefresh(cfg, s, u, job.content, level)
    requires job.Enrich? && level == Full ==> job.version == s.rows[u].stamp.version
    ensures TaskOk(cfg, s, u, PlanOf(cfg, s, u, job), level)
  {
    match job
    case Ingest(c, version, at, lead, graph) => IngestTaskOk(cfg, s, u, c, version, at, lead, graph, level);
    case Reindex(c, version, at) => ReindexTaskOk(cfg, s, u, c, version, at, level);
    case Remove =>
    case Enrich(c, version, at) =>
    case DropMissing =>
  }

  // ------------------------------------------------------------ every run

  lemma StepKeepsInv(cfg: Cfg, sys: Sys, step: Step, level: Level)
    requires Inv(cfg, sys, level) && Enabled(cfg, sys, step) && StepSafe(cfg, sys, step, level)
    ensures Inv(cfg, After(cfg, sys, step), level)
  {
    match step
    case Begin(u, job) =>
      assert u in sys.store.rows ==> RowOk(cfg, sys, u, level);
      BeginTaskOk(cfg, sys.store, u, job, level);
    case Advance(u) =>
      if sys.tasks[u] != [] {
        PerformKeepsInv(cfg, sys, u, level);
      }
    case Abort(_) =>
    case LateEnrich(u, c, i, version, at) =>
      var w := EnrichPlan(cfg, u, c, version, at)[i];
      forall v | v in sys.tasks
        ensures TaskOk(cfg, Apply(sys.store, w), v, sys.tasks[v], level)
      {
        LatePutKeepsTask(cfg, sys.store, w, v, sys.tasks[v]);
      }
  }

  lemma PerformKeepsInv(cfg: Cfg, sys: Sys, u: Uri, level: Level)
    requires Inv(cfg, sys, level) && u in sys.tasks && sys.tasks[u] != []
    ensures Inv(cfg, Perform(sys, sys.tasks[u][0]).(tasks := sys.tasks[u := sys.tasks[u][1..]]), level)
  {
    var todo := sys.tasks[u];
    var w := todo[0];
    var next := Perform(sys, w).(tasks := sys.tasks[u := todo[1..]]);
    assert TaskOk(cfg, sys.store, u, todo, level);
    assert u in sys.store.rows ==> RowOk(cfg, sys, u, level);
    RestTaskOk(cfg, sys.store, u, todo, level);
    HeadKeepsRow(cfg, sys, u, todo, level);
    forall v | v in next.store.rows
      ensures RowOk(cfg, next, v, level)
    {
      if v != u {
        Frame(cfg, sys, w, v, level);
        assert RowOk(cfg, Perform(sys, w), v, level);
      } else {
        assert RowOk(cfg, Perform(sys, w), u, level);
      }
    }
    forall v | v in next.tasks
      ensures TaskOk(cfg, next.store, v, next.tasks[v], level)
    {
      if v != u {
        Frame(cfg, sys, w, v, level);
      }
    }
  }

  /** Without asking for stamps, a late put takes nothing away from anyone. */
  lemma LatePutKeepsTask(cfg: Cfg, s: Store, w: Write, u: Uri, todo: seq<Write>)
    requires w.Put? && TaskOk(cfg, s, u, todo, Present)
    ensures TaskOk(cfg, Apply(s, w), u, todo, Present)
  {
    var t := Apply(s, w);
    assert forall key, stamp :: Stamped(s, key, stamp, Present) ==> Stamped(t, key, stamp, Present);
    if |todo| > 0 && todo[|todo| - 1].Record? {
      assert RecordOk(cfg, t, u, todo, todo[|todo| - 1].row, Present);
    }
  }

  /** The state after any steps of any operations, from empty stores. */
  function Final(cfg: Cfg, steps: seq<Step>): Sys {
    if steps == [] then INIT else After(cfg, Final(cfg, steps[..|steps| - 1]), steps[|steps| - 1])
  }

  predicate ValidRun(cfg: Cfg, steps: seq<Step>) {
    steps == []
    || (ValidRun(cfg, steps[..|steps| - 1]) && Enabled(cfg, Final(cfg, steps[..|steps| - 1]), steps[|steps| - 1]))
  }

  /** Every step is safe at the level in the state it is made in. */
  predicate SafeRun(cfg: Cfg, steps: seq<Step>, level: Level) {
    steps == []
    || (SafeRun(cfg, steps[..|steps| - 1], level) && StepSafe(cfg, Final(cfg, steps[..|steps| - 1]), steps[|steps| - 1], level))
  }

  lemma OneStepMore(cfg: Cfg, steps: seq<Step>, step: Step)
    ensures Final(cfg, steps + [step]) == After(cfg, Final(cfg, steps), step)
    ensures ValidRun(cfg, steps + [step]) <==> ValidRun(cfg, steps) && Enabled(cfg, Final(cfg, steps), step)
    ensures forall level :: SafeRun(cfg, steps + [step], level) <==>
      SafeRun(cfg, steps, level) && StepSafe(cfg, Final(cfg, steps), step, level)
  {
    var all := steps + [step];
    assert all[..|all| - 1] == steps && all[|all| - 1] == step;
  }

  lemma {:induction false} RunKeepsInv(cfg: Cfg, steps: seq<Step>, level: Level)
    requires ValidRun(cfg, steps) && SafeRun(cfg, steps, level)
    ensures Inv(cfg, Final(cfg, steps), level)
  {
    if steps != [] {
      RunKeepsInv(cfg, steps[..|steps| - 1], level);
      StepKeepsInv(cfg, Final(cfg, steps[..|steps| - 1]), steps[|steps| - 1], level);
    }
  }
}
