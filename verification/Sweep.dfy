/** The orphan sweep: what it deletes when nothing else runs, and what it may delete while
    indexing goes on between its snapshot, its scan and its deletes. */
module Sweep {
  import opened Stores
  import opened Plans
  import opened Claims
  import opened ClaimLimits
  import opened Lists
  import opened Backend
  import opened Runs

  /** Every id some manifest row claims. */
  function Known(s: Store): set<ChunkId> {
    set u, id | u in s.rows && id in s.rows[u].ids :: id
  }

  /** The test applied to one scanned point. */
  predicate Sweepable(known: set<ChunkId>, cutoff: int, key: Key, p: Point) {
    && key.id !in known
    && (p.artifact == CodeChunk || p.artifact == DocChunk)
    && !p.skill
    && p.at.Some? && p.at.value < cutoff
  }

  /** A code or doc point of known age that nobody claims and that is older than the cutoff. */
  predicate Orphan(s: Store, cutoff: int, key: Key) {
    key in s.points && Sweepable(Known(s), cutoff, key, s.points[key])
  }

  /** Claimed, of unknown age, young, of a skill, or a synthetic artifact. */
  predicate Spared(s: Store, cutoff: int, key: Key)
    requires key in s.points
  {
    var p := s.points[key];
    || (exists u :: u in s.rows && key.id in s.rows[u].ids)
    || p.at == None || p.at.value >= cutoff || p.skill || p.artifact == Summary || p.artifact == CommunitySummary
  }

  datatype SweepResult = SweepResult(scanned: nat, orphans: set<Key>, deleted: nat, dryRun: bool)

  // ------------------------------------------------------------ a quiescent sweep

  function SweptIds(points: map<Key, Point>, keys: set<Key>, known: set<ChunkId>, cutoff: int): set<ChunkId>
    requires keys <= points.Keys
  {
    set k | k in keys && Sweepable(known, cutoff, k, points[k]) :: k.id
  }

  lemma OneMoreScanned(points: map<Key, Point>, keys: set<Key>, k: Key, known: set<ChunkId>, cutoff: int)
    requires keys <= points.Keys && k in points
    ensures SweptIds(points, keys + {k}, known, cutoff)
      == SweptIds(points, keys, known, cutoff) + if Sweepable(known, cutoff, k, points[k]) then {k.id} else {}
  {
  }

  /** Scans one collection point by point. */
  method ScanCollection(b: Backend, collection: Collection, known: set<ChunkId>, cutoff: int)
      returns (scanned: nat, ids: set<ChunkId>)
    ensures ids == set k | k in b.points && k.collection == collection && Sweepable(known, cutoff, k, b.points[k]) :: k.id
    ensures scanned == |set k | k in b.points && k.collection == collection|
  {
    var rest := set k | k in b.points && k.collection == collection;
    ghost var all := rest;
    scanned, ids := 0, {};
    while rest != {}
      invariant Scanned(b.points, all, rest, known, cutoff, scanned, ids)
      decreases rest
    {
      var k :| k in rest;
      ScanOne(b.points, all, rest, k, known, cutoff, scanned, ids);
      if Sweepable(known, cutoff, k, b.points[k]) {
        ids := ids + {k.id};
      }
      rest, scanned := rest - {k}, scanned + 1;
    }
    assert all - rest == all;
  }

  ghost predicate Scanned(points: map<Key, Point>, all: set<Key>, rest: set<Key>, known: set<ChunkId>, cutoff: int,
                          scanned: nat, ids: set<ChunkId>) {
    rest <= all && all <= points.Keys && scanned == |all - rest| && ids == SweptIds(points, all - rest, known, cutoff)
  }

  lemma ScanOne(points: map<Key, Point>, all: set<Key>, rest: set<Key>, k: Key, known: set<ChunkId>, cutoff: int,
                scanned: nat, ids: set<ChunkId>)
    requires Scanned(points, all, rest, known, cutoff, scanned, ids) && k in rest
    ensures Scanned(points, all, rest - {k}, known, cutoff, scanned + 1,
      if Sweepable(known, cutoff, k, points[k]) then ids + {k.id} else ids)
  {
    assert all - (rest - {k}) == (all - rest) + {k};
    OneMoreScanned(points, all - rest, k, known, cutoff);
  }

  /** `sweep_orphan_points` with nothing else running: a dry run changes nothing, a real run
      removes exactly the orphans, and both report them exactly. */
  method SweepOrphanPoints(b: Backend, grace: nat, dryRun: bool, now: nat) returns (ok: bool, r: SweepResult)
    modifies b
    ensures b.rows == old(b.rows)
    ensures r.orphans == set k | k in old(b.points) && !Spared(old(b.Now()), now - grace, k)
    ensures forall key :: key in old(b.points) && Spared(old(b.Now()), now - grace, key) ==>
      key in b.points && b.points[key] == old(b.points)[key]
    ensures r.scanned == |old(b.points)| && r.dryRun == dryRun
    ensures dryRun ==> ok && b.points == old(b.points) && r.deleted == 0
    ensures ok && !dryRun ==> b.points == map k | k in old(b.points) && k !in r.orphans :: old(b.points)[k]
    ensures ok && !dryRun ==> r.deleted == |r.orphans|
    ensures !ok ==> old(b.points).Keys - r.orphans <= b.points.Keys && b.calls == 0
    ensures ok && !dryRun ==> forall key :: key in b.points ==> Spared(b.Now(), now - grace, key)
  {
    ghost var s := b.Now();
    var known := set u, id | u in b.rows && id in b.rows[u].ids :: id;
    var cutoff := now - grace;
    var scannedCode, code := ScanCollection(b, Code, known, cutoff);
    var scannedText, text := ScanCollection(b, Text, known, cutoff);
    var orphans := (set id | id in code :: Key(Code, id)) + set id | id in text :: Key(Text, id);
    assert known == Known(s);
    OrphansByCollection(s, cutoff, code, text);
    CountByCollection(s.points);
    OrphansAreNotSpared(s, cutoff);
    r := SweepResult(scannedCode + scannedText, orphans, 0, dryRun);
    if dryRun || orphans == {} {
      if orphans == {} {
        NothingLeft(s, cutoff, orphans, b.Now());
      }
      assert orphans == {} ==> b.points == map k | k in b.points && k !in orphans :: b.points[k];
      return true, r;
    }
    ghost var done: seq<Write>;
    ok, done := DeleteBuckets(b, code, text);
    if ok {
      r := r.(deleted := |code| + |text|);
      KeyCount(code, text);
      DeletedAreOrphans(s, code, text, orphans, b.Now());
      NothingLeft(s, cutoff, orphans, b.Now());
    }
  }

  lemma OrphansAreNotSpared(s: Store, cutoff: int)
    ensures forall key :: key in s.points ==> (Orphan(s, cutoff, key) <==> !Spared(s, cutoff, key))
  {
    forall key | key in s.points
      ensures Orphan(s, cutoff, key) <==> !Spared(s, cutoff, key)
    {
      assert key.id in Known(s) <==> exists u :: u in s.rows && key.id in s.rows[u].ids;
    }
  }

  lemma DeletedAreOrphans(s: Store, code: set<ChunkId>, text: set<ChunkId>, orphans: set<Key>, t: Store)
    requires orphans == (set id | id in code :: Key(Code, id)) + set id | id in text :: Key(Text, id)
    requires t.points == map k | k in s.points && !(k.id in if k.collection == Code then code else text) :: s.points[k]
    ensures t.points == map k | k in s.points && k !in orphans :: s.points[k]
  {
    forall k: Key
      ensures k in orphans <==> k.id in if k.collection == Code then code else text
    {
      assert k == Key(k.collection, k.id);
    }
  }

  lemma NothingLeft(s: Store, cutoff: int, orphans: set<Key>, t: Store)
    requires orphans == (set k | k in s.points && Orphan(s, cutoff, k)) && t.rows == s.rows
    requires t.points == map k | k in s.points && k !in orphans :: s.points[k]
    ensures forall key :: key in t.points ==> Spared(t, cutoff, key)
  {
    forall key | key in t.points
      ensures Spared(t, cutoff, key)
    {
      assert !Orphan(s, cutoff, key);
    }
  }

  /** `delete_points_by_ids` with one bucket per collection. */
  method DeleteBuckets(b: Backend, code: set<ChunkId>, text: set<ChunkId>) returns (ok: bool, ghost done: seq<Write>)
    modifies b
    ensures b.rows == old(b.rows) && (!ok ==> b.calls == 0)
    ensures ok ==> b.points == map k | k in old(b.points) && !(k.id in if k.collection == Code then code else text) :: old(b.points)[k]
    ensures forall k :: k in old(b.points) && !(k.id in if k.collection == Code then code else text) ==>
      k in b.points && b.points[k] == old(b.points)[k]
  {
    ghost var u := Uri("", "");
    var owner := Uri("", "");
    ok, done := b.DeletePointsByIds(owner, code, text);
    ghost var s := old(b.Now());
    ghost var full := DropStale(u, Code, code) + DropStale(u, Text, text);
    DropsKeep(s, done);
    assert forall w :: w in done ==> w in full;
    if ok {
      DropStaleEffect(s, u, code, text);
    }
  }

  lemma {:induction false} DropsKeep(s: Store, ws: seq<Write>)
    requires forall w :: w in ws ==> w.Drop?
    ensures var t := ApplyAll(s, ws);
      t.rows == s.rows && forall k :: k in s.points && !Dropped(ws, k) ==> k in t.points && t.points[k] == s.points[k]
    decreases |ws|
  {
    if ws != [] {
      assert ws[0] in ws;
      var rest := ws[1..];
      assert forall w :: w in rest ==> w in ws;
      DropsKeep(Apply(s, ws[0]), rest);
      assert forall k :: Dropped(rest, k) ==> Dropped(ws, k);
    }
  }

  lemma DropStaleEffect(s: Store, u: Uri, code: set<ChunkId>, text: set<ChunkId>)
    ensures var t := ApplyAll(s, DropStale(u, Code, code) + DropStale(u, Text, text));
      t.points == map k | k in s.points && !(k.id in if k.collection == Code then code else text) :: s.points[k]
  {
    var a, b := DropStale(u, Code, code), DropStale(u, Text, text);
    ApplyAllConcat(s, a, b);
    var mid := ApplyAll(s, a);
    if code != {} {
      ApplyOne(s, Drop(Code, u, code));
    }
    assert mid.points == map k | k in s.points && !(k.collection == Code && k.id in code) :: s.points[k];
    if text != {} {
      ApplyOne(mid, Drop(Text, u, text));
    }
  }

  lemma OrphansByCollection(s: Store, cutoff: int, code: set<ChunkId>, text: set<ChunkId>)
    requires code == set k | k in s.points && k.collection == Code && Sweepable(Known(s), cutoff, k, s.points[k]) :: k.id
    requires text == set k | k in s.points && k.collection == Text && Sweepable(Known(s), cutoff, k, s.points[k]) :: k.id
    ensures (set id | id in code :: Key(Code, id)) + (set id | id in text :: Key(Text, id))
         == set k | k in s.points && Orphan(s, cutoff, k)
    ensures forall k :: k in s.points ==> (k.id in (if k.collection == Code then code else text) <==> Orphan(s, cutoff, k))
  {
    forall k: Key
      ensures k.id in (if k.collection == Code then code else text) <==> Orphan(s, cutoff, k)
    {
      if k.id in (if k.collection == Code then code else text) {
        var j: Key :| j in s.points && j.collection == k.collection && j.id == k.id && Orphan(s, cutoff, j);
        assert j == k;
      }
    }
    var all := (set id | id in code :: Key(Code, id)) + (set id | id in text :: Key(Text, id));
    forall k: Key
      ensures k in all <==> Orphan(s, cutoff, k)
    {
      assert k == Key(k.collection, k.id);
    }
  }

  lemma CountByCollection(points: map<Key, Point>)
    ensures |set k | k in points && k.collection == Code| + |set k | k in points && k.collection == Text| == |points|
  {
    var a, b := set k | k in points && k.collection == Code, set k | k in points && k.collection == Text;
    assert a !! b && a + b == points.Keys;
  }

  lemma {:induction false} KeyCount(code: set<ChunkId>, text: set<ChunkId>)
    ensures |(set id | id in code :: Key(Code, id)) + (set id | id in text :: Key(Text, id))| == |code| + |text|
  {
    Lifted(Code, code);
    Lifted(Text, text);
    assert (set id | id in code :: Key(Code, id)) !! (set id | id in text :: Key(Text, id));
  }

  lemma {:induction false} Lifted(c: Collection, ids: set<ChunkId>)
    ensures |set id | id in ids :: Key(c, id)| == |ids|
    decreases ids
  {
    if ids != {} {
      var x :| x in ids;
      Lifted(c, ids - {x});
      assert (set id | id in ids :: Key(c, id)) == (set id | id in ids - {x} :: Key(c, id)) + {Key(c, x)};
    }
  }

  // ------------------------------------------------------------ a sweep among writers

  /** `doomed` collects what the scan found; `touched` the scanned points that were put again since. */
  datatype Sweeping =
    | Idle
    | Active(known: set<ChunkId>, cutoff: int, seen: set<Key>, doomed: set<Key>, touched: set<Key>)

  /** `born` is the `indexed_at` of each running operation. */
  datatype World = World(sys: Sys, born: map<Uri, nat>, sweep: Sweeping)

  const START := World(INIT, map[], Idle)

  datatype Move =
    | Act(step: Step)
    | Snapshot(now: nat, grace: nat)
    | Scan(key: Key)
    | Delete(key: Key)
    | Finish
    | PutSkill(key: Key, point: Point)

  function BornAt(job: Job): nat {
    match job
    case Ingest(_, _, at, _, _) => at
    case Reindex(_, _, at) => at
    case Enrich(_, _, at) => at
    case _ => 0
  }

  predicate Writes(job: Job) {
    job.Ingest? || job.Reindex? || job.Enrich?
  }

  /** What the code lets happen: indexing goes on as in `Claims`, a sweep takes its snapshot, scans each
      key at most once and deletes what the scan found. An approval may put the chunk of a skill, which
      carries no time and belongs to no resource. */
  predicate Legal(cfg: Cfg, w: World, move: Move) {
    match move
    case Act(step) => Enabled(cfg, w.sys, step)
    case Snapshot(_, _) => w.sweep.Idle?
    case Scan(key) => w.sweep.Active? && key !in w.sweep.seen
    case Delete(key) => w.sweep.Active? && key in w.sweep.doomed
    case Finish => true
    case PutSkill(key, p) =>
      p.skill && p.at == None && p.artifact == DocChunk && key.collection == Text && key.id.first == 1
      && key.id.uri !in w.sys.store.rows && key.id.uri !in w.sys.tasks
  }

  /** What the grace window is for: an operation in flight while a sweep is active is younger than the
      window. A late enrichment write carries the time it is made at, so it is no older than the
      operation it overtakes nor than the cutoff of a sweep under way. */
  predicate Timely(w: World, move: Move) {
    match move
    case Act(LateEnrich(u, _, _, _, at)) =>
      (u in w.born ==> at >= w.born[u]) && (w.sweep.Active? ==> at >= w.sweep.cutoff)
    case Act(Begin(_, job)) => Writes(job) && w.sweep.Active? ==> BornAt(job) >= w.sweep.cutoff
    case Snapshot(now, grace) => forall u :: u in w.born ==> w.born[u] >= now - grace
    case _ => true
  }

  predicate Possible(cfg: Cfg, w: World, move: Move) {
    Legal(cfg, w, move) && Timely(w, move)
  }

  function Touch(sweep: Sweeping, write: Write): Sweeping {
    if sweep.Active? && write.Put? && write.key in sweep.seen
    then sweep.(touched := sweep.touched + {write.key})
    else sweep
  }

  function Moved(cfg: Cfg, w: World, move: Move): World
    requires Legal(cfg, w, move)
  {
    var s := w.sys.store;
    match move
    case Act(step) =>
      var sys := After(cfg, w.sys, step);
      (match step
       case Begin(u, job) => World(sys, if Writes(job) then w.born[u := BornAt(job)] else w.born - {u}, w.sweep)
       case Advance(u) =>
         if w.sys.tasks[u] == [] then World(sys, w.born - {u}, w.sweep)
         else World(sys, w.born, Touch(w.sweep, w.sys.tasks[u][0]))
       case Abort(u) => World(sys, w.born - {u}, w.sweep)
       case LateEnrich(u, c, i, version, at) => World(sys, w.born, Touch(w.sweep, EnrichPlan(cfg, u, c, version, at)[i])))
    case Snapshot(now, grace) => w.(sweep := Active(Known(s), now - grace, {}, {}, {}))
    case Scan(key) =>
      var found := key in s.points && Sweepable(w.sweep.known, w.sweep.cutoff, key, s.points[key]);
      w.(sweep := w.sweep.(seen := w.sweep.seen + {key},
                           doomed := if found then w.sweep.doomed + {key} else w.sweep.doomed))
    case Delete(key) =>
      w.(sys := w.sys.(store := s.(points := map k | k in s.points && k != key :: s.points[k])))
    case Finish => w.(sweep := Idle)
    case PutSkill(key, p) => World(Perform(w.sys, Put(key, p)), w.born, Touch(w.sweep, Put(key, p)))
  }

  // ------------------------------------------------------------ what rows and points are

  /** A row that ingestion wrote claims every chunk of its content that is not synthetic. */
  predicate ClaimsRaw(cfg: Cfg, u: Uri, row: Row) {
    !cfg.daemon(u.owner) && row.stamp.hash.Sha? ==> Ids(u, RawChunks(cfg, u, row.stamp.hash.content)) <= row.ids
  }

  /** A code or doc point stands for lines, which count from 1. */
  predicate Placed(key: Key, p: Point) {
    p.artifact == CodeChunk || p.artifact == DocChunk ==> key.id.first >= 1
  }

  predicate WriteOk(cfg: Cfg, w: Write) {
    match w
    case Put(key, p) => Placed(key, p)
    case Record(u, row) => ClaimsRaw(cfg, u, row)
    case _ => true
  }

  predicate StoreOk(cfg: Cfg, s: Store) {
    && (forall u :: u in s.rows ==> ClaimsRaw(cfg, u, s.rows[u]))
    && (forall key :: key in s.points ==> Placed(key, s.points[key]))
  }

  predicate SysOk(cfg: Cfg, sys: Sys) {
    StoreOk(cfg, sys.store) && forall u, x :: u in sys.tasks && x in sys.tasks[u] ==> WriteOk(cfg, x)
  }

  lemma WriteKeepsStoreOk(cfg: Cfg, s: Store, w: Write)
    requires StoreOk(cfg, s) && WriteOk(cfg, w)
    ensures StoreOk(cfg, Apply(s, w))
  {
  }

  lemma PutsOk(cfg: Cfg, u: Uri, chunks: seq<Chunk>, stamp: Stamp, at: nat)
    requires forall ch :: ch in chunks ==> ch.artifact == CodeChunk || ch.artifact == DocChunk ==> ch.first >= 1
    ensures forall x :: x in Puts(u, chunks, stamp, at) ==> WriteOk(cfg, x)
  {
    forall x | x in Puts(u, chunks, stamp, at)
      ensures WriteOk(cfg, x)
    {
      var i :| 0 <= i < |chunks| && Puts(u, chunks, stamp, at)[i] == x;
      assert chunks[i] in chunks;
    }
  }

  lemma EnrichPlanOk(cfg: Cfg, u: Uri, c: Content, version: nat, at: nat)
    ensures forall x :: x in EnrichPlan(cfg, u, c, version, at) ==> WriteOk(cfg, x)
  {
    InOrderChunks(cfg, u, c);
    PutsOk(cfg, u, InOrder(RawChunks(cfg, u, c)), Stamp(Sha(c), version), at);
  }

  lemma NewRowClaimsRaw(cfg: Cfg, s: Store, u: Uri, c: Content, version: nat, graph: GraphOutcome)
    requires Classify(Prior(s, u), c, version) != Skip
    requires u in s.rows ==> ClaimsRaw(cfg, u, s.rows[u])
    ensures ClaimsRaw(cfg, u, NewRow(cfg, u, Prior(s, u), c, version, Classify(Prior(s, u), c, version), graph))
  {
    var raw := RawChunks(cfg, u, c);
    assert forall ch :: ch in raw ==> ch in IngestChunks(cfg, u, c, graph != ExtractFailed);
  }

  lemma IngestPlanOk(cfg: Cfg, s: Store, u: Uri, c: Content, version: nat, at: nat, lead: Collection, graph: GraphOutcome)
    requires Classify(Prior(s, u), c, version) != Skip
    requires u in s.rows ==> ClaimsRaw(cfg, u, s.rows[u])
    ensures forall x :: x in IngestPlan(cfg, Prior(s, u), u, c, version, at, lead, graph) ==> WriteOk(cfg, x)
  {
    var action := Classify(Prior(s, u), c, version);
    var chunks := VectorChunks(cfg, u, c, action, graph != ExtractFailed);
    forall ch | ch in Bucketed(chunks, lead)
      ensures ch in chunks
    {
      PickMembers(chunks, InCollection(lead), ch);
      PickMembers(chunks, InCollection(Other(lead)), ch);
    }
    PutsOk(cfg, u, Bucketed(chunks, lead), Stamp(Sha(c), version), at);
    NewRowClaimsRaw(cfg, s, u, c, version, graph);
  }

  lemma PlanOk(cfg: Cfg, s: Store, u: Uri, job: Job)
    requires StoreOk(cfg, s) && CanBegin(cfg, s, u, job)
    ensures forall x :: x in PlanOf(cfg, s, u, job) ==> WriteOk(cfg, x)
  {
    match job
    case Ingest(c, version, at, lead, graph) => IngestPlanOk(cfg, s, u, c, version, at, lead, graph);
    case Reindex(c, version, at) =>
      EnrichPlanOk(cfg, u, c, version, at);
      assert forall x :: x in ReindexPlan(cfg, s, u, c, version, at) ==>
        x in EnrichPlan(cfg, u, c, version, at) || x.Mark? || x.Drop? || x == Record(u, ReindexPlan(cfg, s, u, c, version, at)[|ReindexPlan(cfg, s, u, c, version, at)| - 1].row);
    case Enrich(c, version, at) => EnrichPlanOk(cfg, u, c, version, at);
    case _ =>
  }

  lemma StepKeepsSysOk(cfg: Cfg, sys: Sys, step: Step)
    requires SysOk(cfg, sys) && Enabled(cfg, sys, step)
    ensures SysOk(cfg, After(cfg, sys, step))
  {
    match step
    case Begin(u, job) => PlanOk(cfg, sys.store, u, job);
    case Advance(u) =>
      if sys.tasks[u] != [] {
        assert sys.tasks[u][0] in sys.tasks[u];
        WriteKeepsStoreOk(cfg, sys.store, sys.tasks[u][0]);
      }
    case Abort(_) =>
    case LateEnrich(u, c, i, version, at) =>
      EnrichPlanOk(cfg, u, c, version, at);
      assert EnrichPlan(cfg, u, c, version, at)[i] in EnrichPlan(cfg, u, c, version, at);
      WriteKeepsStoreOk(cfg, sys.store, EnrichPlan(cfg, u, c, version, at)[i]);
  }

  /** What the scan found has been scanned and stands for lines. */
  predicate DoomedOk(sweep: Sweeping) {
    sweep.Active? ==> forall key :: key in sweep.doomed ==> key in sweep.seen && key.id.first >= 1
  }

  // ------------------------------------------------------------ why it is safe

  /** Put since the operation began or of unknown age, not there at all, already claimed, or a synthetic chunk's. */
  predicate FromTask(cfg: Cfg, s: Store, u: Uri, at: nat, key: Key) {
    key.id.first == 0 || key !in s.points || (s.points[key].at.Some? ==> s.points[key].at.value >= at) || (u in s.rows && key in ClaimKeys(cfg, u, s.rows[u]))
  }

  predicate TaskFits(cfg: Cfg, s: Store, u: Uri, at: nat, todo: seq<Write>) {
    && (forall j :: 0 <= j < |todo| ==> Target(todo[j]) == u)
    && (forall j :: 0 <= j < |todo| && todo[j].Put? ==> todo[j].point.at == Some(at))
    && (forall j :: 0 <= j < |todo| && (todo[j].Record? || todo[j].Forget?) ==> j == |todo| - 1)
    && (|todo| > 0 && todo[|todo| - 1].Record? ==>
          forall key :: key in ClaimKeys(cfg, u, todo[|todo| - 1].row) ==>
            WillPut(todo, |todo| - 1, key) || FromTask(cfg, s, u, at, key))
  }

  /** The sweep will not take this point unless it was put again after its scan. Nothing it may take
      has line 0, where the synthetic chunks are. */
  predicate Safe(s: Store, sweep: Sweeping, key: Key)
    requires sweep.Active?
  {
    key.id.first == 0 || key in sweep.touched
    || (key !in sweep.doomed
        && (key in sweep.seen || key !in s.points || key.id in sweep.known
            || (s.points[key].at.Some? ==> s.points[key].at.value >= sweep.cutoff)))
  }

  predicate SweepOk(cfg: Cfg, w: World)
    requires w.sweep.Active?
  {
    && (forall u :: u in w.born ==> w.born[u] >= w.sweep.cutoff)
    && (forall u, key :: u in w.sys.store.rows && key in ClaimKeys(cfg, u, w.sys.store.rows[u]) ==> Safe(w.sys.store, w.sweep, key))
    && (forall u, key :: u in w.sys.tasks && Recording(w.sys.tasks[u]) && key in ClaimKeys(cfg, u, LastRow(w.sys.tasks[u])) ==>
          WillPut(w.sys.tasks[u], |w.sys.tasks[u]| - 1, key) || Safe(w.sys.store, w.sweep, key))
  }

  predicate Recording(todo: seq<Write>) {
    |todo| > 0 && todo[|todo| - 1].Record?
  }

  function LastRow(todo: seq<Write>): Row
    requires Recording(todo)
  {
    todo[|todo| - 1].row
  }

  predicate WorldOk(cfg: Cfg, w: World) {
    && w.born.Keys <= w.sys.tasks.Keys
    && (forall u :: u in w.sys.tasks ==>
          if u in w.born then TaskFits(cfg, w.sys.store, u, w.born[u], w.sys.tasks[u])
          else forall x :: x in w.sys.tasks[u] ==> Target(x) == u && (x.Drop? || x.Forget?))
    && (w.sweep.Active? ==> SweepOk(cfg, w))
  }

  /** An ingest or a reindex claims only what it puts, what the row it replaces claims, or synthetic
      chunks. */
  lemma JobFits(cfg: Cfg, s: Store, u: Uri, job: Job)
    requires CanBegin(cfg, s, u, job) && Writes(job) && (u in s.rows ==> ClaimsRaw(cfg, u, s.rows[u]))
    ensures var todo := PlanOf(cfg, s, u, job);
      && TaskFits(cfg, s, u, BornAt(job), todo)
      && (Recording(todo) ==> forall key :: key in ClaimKeys(cfg, u, LastRow(todo)) ==>
            key.id.first == 0 || WillPut(todo, |todo| - 1, key) || (u in s.rows && key in ClaimKeys(cfg, u, s.rows[u])))
  {
    match job
    case Ingest(c, version, at, lead, graph) =>
      var prior, action := Prior(s, u), Classify(Prior(s, u), c, version);
      var chunks := VectorChunks(cfg, u, c, action, graph != ExtractFailed);
      var vector := Bucketed(chunks, lead);
      var row := NewRow(cfg, u, prior, c, version, action, graph);
      var stale := (if prior.Some? then prior.value.ids else {}) - row.ids;
      BucketedSame(u, chunks, lead);
      NewClaims(cfg, s, u, c, version, graph);
      ShapedFits(cfg, s, u, vector != [], vector, at, Drops(u, stale), row);
      assert PlanOf(cfg, s, u, job) == Shaped(u, vector != [], vector, at, Drops(u, stale), row);
    case Reindex(c, version, at) =>
      var chunks, drops, row := ReindexPlanShape(cfg, s, u, c, version, at);
      assert ClaimKeys(cfg, u, row) <= Keys(u, chunks);
      ShapedFits(cfg, s, u, true, chunks, at, drops, row);
    case Enrich(c, version, at) =>
  }

  lemma NewClaims(cfg: Cfg, s: Store, u: Uri, c: Content, version: nat, graph: GraphOutcome)
    requires !cfg.daemon(u.owner) && Classify(Prior(s, u), c, version) != Skip
    requires u in s.rows ==> ClaimsRaw(cfg, u, s.rows[u])
    ensures var action := Classify(Prior(s, u), c, version);
      var row := NewRow(cfg, u, Prior(s, u), c, version, action, graph);
      forall key :: key in ClaimKeys(cfg, u, row) ==>
        key.id.first == 0 || key in Keys(u, VectorChunks(cfg, u, c, action, graph != ExtractFailed))
        || (u in s.rows && key in ClaimKeys(cfg, u, s.rows[u]))
  {
    var action := Classify(Prior(s, u), c, version);
    var extracted := graph != ExtractFailed;
    var row := NewRow(cfg, u, Prior(s, u), c, version, action, graph);
    var vector := VectorChunks(cfg, u, c, action, extracted);
    WantedIsIngest(cfg, u, c);
    forall key | key in ClaimKeys(cfg, u, row)
      ensures key.id.first == 0 || key in Keys(u, vector) || (u in s.rows && key in ClaimKeys(cfg, u, s.rows[u]))
    {
      var ch :| ch in Wanted(cfg, u, c) && KeyOf(u, ch).id in row.ids && KeyOf(u, ch) == key;
      if action != Refresh {
        IdsPickChunks(cfg, u, c, extracted, ch);
      } else if vector != [] && ch !in CommunityChunks(cfg, u, c) {
        assert ch in RawChunks(cfg, u, c) + SummaryChunks(cfg, u, c);
        assert ch in RawChunks(cfg, u, c) ==> key.id in Ids(u, RawChunks(cfg, u, c));
      }
    }
  }

  lemma ShapedFits(cfg: Cfg, s: Store, u: Uri, marked: bool, chunks: seq<Chunk>, at: nat, drops: seq<Write>, row: Row)
    requires forall w :: w in drops ==> w.Drop? && w.uri == u
    requires forall key :: key in ClaimKeys(cfg, u, row) ==> key.id.first == 0 || key in Keys(u, chunks) || (u in s.rows && key in ClaimKeys(cfg, u, s.rows[u]))
    ensures var todo := Shaped(u, marked, chunks, at, drops, row);
      && TaskFits(cfg, s, u, at, todo) && Recording(todo) && LastRow(todo) == row
      && forall key :: key in ClaimKeys(cfg, u, row) ==>
           key.id.first == 0 || WillPut(todo, |todo| - 1, key) || (u in s.rows && key in ClaimKeys(cfg, u, s.rows[u]))
  {
    var todo := Shaped(u, marked, chunks, at, drops, row);
    var m := if marked then 1 else 0;
    var puts := Puts(u, chunks, row.stamp, at);
    ShapedParts(u, marked, chunks, at, drops, row);
    assert forall j :: m <= j < m + |chunks| ==> todo[j] == puts[j - m];
    assert forall j :: m + |chunks| <= j < |todo| - 1 ==> todo[j] in drops;
    forall key | key in ClaimKeys(cfg, u, row) && key in Keys(u, chunks)
      ensures WillPut(todo, |todo| - 1, key)
    {
      ShapedWillPut(u, marked, chunks, at, drops, row, key);
    }
  }

  // ------------------------------------------------------------ one move

  lemma WillPutRest(todo: seq<Write>, key: Key)
    requires Recording(todo) && |todo| > 1 && WillPut(todo, |todo| - 1, key)
    ensures (todo[0].Put? && todo[0].key == key) || WillPut(todo[1..], |todo| - 2, key)
  {
    var j :| 0 <= j < |todo| - 1 && todo[j].Put? && todo[j].key == key;
    if j > 0 {
      assert todo[1..][j - 1].Put? && todo[1..][j - 1].key == key;
    }
  }

  lemma RestFromTask(cfg: Cfg, s: Store, u: Uri, at: nat, todo: seq<Write>, key: Key)
    requires |todo| > 1 && TaskFits(cfg, s, u, at, todo) && Recording(todo)
    requires key in ClaimKeys(cfg, u, LastRow(todo)) && !WillPut(todo[1..], |todo| - 2, key)
    ensures FromTask(cfg, Apply(s, todo[0]), u, at, key)
  {
    assert Target(todo[0]) == u;
    assert todo[0].Put? ==> todo[0].point.at == Some(at);
    if WillPut(todo, |todo| - 1, key) {
      WillPutRest(todo, key);
    } else {
      assert key in ClaimKeys(cfg, u, todo[|todo| - 1].row) && FromTask(cfg, s, u, at, key);
    }
  }

  lemma AdvanceFits(cfg: Cfg, s: Store, u: Uri, at: nat, todo: seq<Write>)
    requires todo != [] && TaskFits(cfg, s, u, at, todo)
    ensures TaskFits(cfg, Apply(s, todo[0]), u, at, todo[1..])
  {
    var rest := todo[1..];
    assert forall j :: 0 <= j < |rest| ==> rest[j] == todo[j + 1];
    if Recording(rest) {
      forall key | key in ClaimKeys(cfg, u, LastRow(rest)) && !WillPut(rest, |rest| - 1, key)
        ensures FromTask(cfg, Apply(s, todo[0]), u, at, key)
      {
        RestFromTask(cfg, s, u, at, todo, key);
      }
    }
  }

  lemma OthersFit(cfg: Cfg, s: Store, w: Write, u: Uri, at: nat, todo: seq<Write>)
    requires Target(w) != u && TaskFits(cfg, s, u, at, todo)
    ensures TaskFits(cfg, Apply(s, w), u, at, todo)
  {
    var t := Apply(s, w);
    assert u in s.rows <==> u in t.rows;
    assert u in s.rows ==> t.rows[u] == s.rows[u];
    if Recording(todo) {
      forall key | key in ClaimKeys(cfg, u, LastRow(todo)) && FromTask(cfg, s, u, at, key)
        ensures FromTask(cfg, t, u, at, key)
      {
        assert key.id.uri == u;
      }
    }
  }

  /** A young write never makes a safe point unsafe, and makes the point it puts safe. */
  lemma WriteKeepsSafe(s: Store, sweep: Sweeping, w: Write, key: Key)
    requires sweep.Active? && (w.Put? && w.point.at.Some? ==> w.point.at.value >= sweep.cutoff)
    requires DoomedOk(sweep)
    ensures Safe(s, sweep, key) || (w.Put? && w.key == key) ==> Safe(Apply(s, w), Touch(sweep, w), key)
  {
  }

  lemma AdvanceKeepsSweep(cfg: Cfg, w: World, u: Uri)
    requires WorldOk(cfg, w) && w.sweep.Active? && DoomedOk(w.sweep)
    requires u in w.sys.tasks && w.sys.tasks[u] != []
    ensures SweepOk(cfg, Moved(cfg, w, Act(Advance(u))))
  {
    var todo := w.sys.tasks[u];
    var head, next := todo[0], Moved(cfg, w, Act(Advance(u)));
    var s, t := w.sys.store, next.sys.store;
    assert head in todo;
    assert head.Put? ==> u in w.born && head.point.at == Some(w.born[u]);
    forall v, key | v in t.rows && key in ClaimKeys(cfg, v, t.rows[v])
      ensures Safe(t, next.sweep, key)
    {
      WriteKeepsSafe(s, w.sweep, head, key);
      if head.Record? && v == u {
        assert |todo| == 1 && u in w.born && Recording(todo) && LastRow(todo) == head.row;
        assert !WillPut(todo, 0, key);
      } else if v in s.rows {
        assert key in ClaimKeys(cfg, v, s.rows[v]);
      }
    }
    forall v, key | v in next.sys.tasks && Recording(next.sys.tasks[v]) && key in ClaimKeys(cfg, v, LastRow(next.sys.tasks[v]))
      ensures WillPut(next.sys.tasks[v], |next.sys.tasks[v]| - 1, key) || Safe(t, next.sweep, key)
    {
      WriteKeepsSafe(s, w.sweep, head, key);
      if v == u {
        assert Recording(todo) && LastRow(todo) == LastRow(todo[1..]);
        if WillPut(todo, |todo| - 1, key) {
          WillPutRest(todo, key);
        }
      }
    }
  }

  lemma AdvanceKeepsWorld(cfg: Cfg, w: World, u: Uri)
    requires WorldOk(cfg, w) && u in w.sys.tasks && w.sys.tasks[u] != []
    requires DoomedOk(w.sweep)
    ensures WorldOk(cfg, Moved(cfg, w, Act(Advance(u))))
  {
    var todo := w.sys.tasks[u];
    var next := Moved(cfg, w, Act(Advance(u)));
    assert todo[0] in todo && Target(todo[0]) == u;
    forall v | v in next.sys.tasks
      ensures if v in next.born then TaskFits(cfg, next.sys.store, v, next.born[v], next.sys.tasks[v])
        else forall x :: x in next.sys.tasks[v] ==> Target(x) == v && (x.Drop? || x.Forget?)
    {
      if v in w.born {
        if v == u {
          AdvanceFits(cfg, w.sys.store, u, w.born[u], todo);
        } else {
          OthersFit(cfg, w.sys.store, todo[0], v, w.born[v], w.sys.tasks[v]);
        }
      }
    }
    if w.sweep.Active? {
      AdvanceKeepsSweep(cfg, w, u);
    }
  }

  lemma BeginKeepsWorld(cfg: Cfg, w: World, u: Uri, job: Job)
    requires WorldOk(cfg, w) && StoreOk(cfg, w.sys.store) && Possible(cfg, w, Act(Begin(u, job)))
    ensures WorldOk(cfg, Moved(cfg, w, Act(Begin(u, job))))
  {
    if Writes(job) {
      JobFits(cfg, w.sys.store, u, job);
    }
    if w.sweep.Active? {
      BeginKeepsSweep(cfg, w, u, job);
    }
  }

  lemma BeginKeepsSweep(cfg: Cfg, w: World, u: Uri, job: Job)
    requires w.sweep.Active? && SweepOk(cfg, w) && StoreOk(cfg, w.sys.store) && Possible(cfg, w, Act(Begin(u, job)))
    ensures SweepOk(cfg, Moved(cfg, w, Act(Begin(u, job))))
  {
    var tasks := w.sys.tasks[u := PlanOf(cfg, w.sys.store, u, job)];
    if Writes(job) {
      JobFits(cfg, w.sys.store, u, job);
    }
    forall v, key | v in tasks && Recording(tasks[v]) && key in ClaimKeys(cfg, v, LastRow(tasks[v]))
      ensures WillPut(tasks[v], |tasks[v]| - 1, key) || Safe(w.sys.store, w.sweep, key)
    {
    }
  }

  lemma SnapshotKeepsWorld(cfg: Cfg, w: World, now: nat, grace: nat)
    requires WorldOk(cfg, w) && Possible(cfg, w, Snapshot(now, grace))
    ensures WorldOk(cfg, Moved(cfg, w, Snapshot(now, grace)))
  {
    var next := Moved(cfg, w, Snapshot(now, grace));
    var s := w.sys.store;
    forall u, key | u in s.rows && key in ClaimKeys(cfg, u, s.rows[u])
      ensures key.id in Known(s)
    {
      assert key.id in s.rows[u].ids;
    }
    forall u, key | u in w.sys.tasks && Recording(w.sys.tasks[u]) && key in ClaimKeys(cfg, u, LastRow(w.sys.tasks[u]))
      ensures WillPut(w.sys.tasks[u], |w.sys.tasks[u]| - 1, key) || Safe(s, next.sweep, key)
    {
      assert w.sys.tasks[u][|w.sys.tasks[u]| - 1] in w.sys.tasks[u];
      assert u in w.born && TaskFits(cfg, s, u, w.born[u], w.sys.tasks[u]);
      if !WillPut(w.sys.tasks[u], |w.sys.tasks[u]| - 1, key) {
        assert FromTask(cfg, s, u, w.born[u], key);
      }
    }
  }

  lemma DeleteKeepsWorld(cfg: Cfg, w: World, key: Key)
    requires WorldOk(cfg, w) && DoomedOk(w.sweep) && Possible(cfg, w, Delete(key))
    ensures WorldOk(cfg, Moved(cfg, w, Delete(key)))
  {
    var next := Moved(cfg, w, Delete(key));
    assert forall k :: k in next.sys.store.points ==> k in w.sys.store.points && next.sys.store.points[k] == w.sys.store.points[k];
    assert forall k :: Safe(w.sys.store, w.sweep, k) ==> Safe(next.sys.store, next.sweep, k);
    forall u | u in w.born
      ensures TaskFits(cfg, next.sys.store, u, w.born[u], w.sys.tasks[u])
    {
      var todo := w.sys.tasks[u];
      assert TaskFits(cfg, w.sys.store, u, w.born[u], todo);
      if Recording(todo) {
        forall k | k in ClaimKeys(cfg, u, LastRow(todo)) && FromTask(cfg, w.sys.store, u, w.born[u], k)
          ensures FromTask(cfg, next.sys.store, u, w.born[u], k)
        {
        }
      }
    }
  }

  lemma AbortKeepsWorld(cfg: Cfg, w: World, u: Uri)
    requires WorldOk(cfg, w) && u in w.sys.tasks
    ensures WorldOk(cfg, Moved(cfg, w, Act(Abort(u))))
  {
  }

  lemma LateKeepsWorld(cfg: Cfg, w: World, u: Uri, c: Content, i: nat, version: nat, at: nat)
    requires WorldOk(cfg, w) && DoomedOk(w.sweep) && Possible(cfg, w, Act(LateEnrich(u, c, i, version, at)))
    ensures WorldOk(cfg, Moved(cfg, w, Act(LateEnrich(u, c, i, version, at))))
  {
    var put := EnrichPlan(cfg, u, c, version, at)[i];
    var next := Moved(cfg, w, Act(LateEnrich(u, c, i, version, at)));
    forall v | v in w.born
      ensures TaskFits(cfg, next.sys.store, v, w.born[v], w.sys.tasks[v])
    {
      LateFits(cfg, w.sys.store, put, v, w.born[v], w.sys.tasks[v]);
    }
    if w.sweep.Active? {
      forall key
        ensures Safe(w.sys.store, w.sweep, key) ==> Safe(next.sys.store, next.sweep, key)
      {
        WriteKeepsSafe(w.sys.store, w.sweep, put, key);
      }
    }
  }

  lemma LateFits(cfg: Cfg, s: Store, put: Write, v: Uri, at: nat, todo: seq<Write>)
    requires put.Put? && (Target(put) == v && put.point.at.Some? ==> put.point.at.value >= at)
    requires TaskFits(cfg, s, v, at, todo)
    ensures TaskFits(cfg, Apply(s, put), v, at, todo)
  {
    var t := Apply(s, put);
    if Recording(todo) {
      forall key | key in ClaimKeys(cfg, v, LastRow(todo)) && FromTask(cfg, s, v, at, key)
        ensures FromTask(cfg, t, v, at, key)
      {
        assert key.id.uri == v;
      }
    }
  }

  lemma ScanKeepsWorld(cfg: Cfg, w: World, key: Key)
    requires WorldOk(cfg, w) && DoomedOk(w.sweep) && Possible(cfg, w, Scan(key))
    ensures WorldOk(cfg, Moved(cfg, w, Scan(key)))
  {
    var next := Moved(cfg, w, Scan(key));
    assert forall k :: Safe(w.sys.store, w.sweep, k) ==> Safe(next.sys.store, next.sweep, k);
  }

  /** The last step of an operation that has nothing left to write. */
  lemma EndKeepsWorld(cfg: Cfg, w: World, u: Uri)
    requires WorldOk(cfg, w) && u in w.sys.tasks && w.sys.tasks[u] == []
    ensures WorldOk(cfg, Moved(cfg, w, Act(Advance(u))))
  {
    assert Moved(cfg, w, Act(Advance(u))) == Moved(cfg, w, Act(Abort(u)));
    AbortKeepsWorld(cfg, w, u);
  }

  lemma SkillKeepsWorld(cfg: Cfg, w: World, key: Key, p: Point)
    requires WorldOk(cfg, w) && DoomedOk(w.sweep) && Possible(cfg, w, PutSkill(key, p))
    ensures WorldOk(cfg, Moved(cfg, w, PutSkill(key, p)))
  {
    var put, next := Put(key, p), Moved(cfg, w, PutSkill(key, p));
    forall v | v in w.born
      ensures TaskFits(cfg, next.sys.store, v, w.born[v], w.sys.tasks[v])
    {
      LateFits(cfg, w.sys.store, put, v, w.born[v], w.sys.tasks[v]);
    }
    if w.sweep.Active? {
      forall k
        ensures Safe(w.sys.store, w.sweep, k) ==> Safe(next.sys.store, next.sweep, k)
      {
        WriteKeepsSafe(w.sys.store, w.sweep, put, k);
      }
    }
  }

  /** What is to be deleted was put again since its scan, or is still what the test lets through: a code
      or doc point that is no skill's, is known to be older than the cutoff, and was claimed by nobody. */
  predicate Plain(w: World, key: Key)
    requires w.sweep.Active?
  {
    || key in w.sweep.touched || key !in w.sys.store.points
    || (var p := w.sys.store.points[key];
        && (p.artifact == CodeChunk || p.artifact == DocChunk) && !p.skill
        && p.at.Some? && p.at.value < w.sweep.cutoff && key.id !in w.sweep.known)
  }

  predicate DoomedPlain(w: World) {
    w.sweep.Active? ==> forall key :: key in w.sweep.doomed ==> Plain(w, key)
  }

  lemma WriteKeepsPlain(w: World, t: World, x: Write)
    requires DoomedPlain(w) && DoomedOk(w.sweep) && t.sys.store == Apply(w.sys.store, x) && t.sweep == Touch(w.sweep, x)
    ensures DoomedPlain(t)
  {
    if t.sweep.Active? {
      forall key | key in t.sweep.doomed
        ensures Plain(t, key)
      {
        assert Plain(w, key);
      }
    }
  }

  lemma MoveKeepsPlain(cfg: Cfg, w: World, move: Move)
    requires DoomedPlain(w) && DoomedOk(w.sweep) && Legal(cfg, w, move)
    ensures DoomedPlain(Moved(cfg, w, move))
  {
    var t := Moved(cfg, w, move);
    match move
    case Act(Advance(u)) =>
      if w.sys.tasks[u] != [] {
        WriteKeepsPlain(w, t, w.sys.tasks[u][0]);
      }
    case Act(LateEnrich(u, c, i, version, at)) => WriteKeepsPlain(w, t, EnrichPlan(cfg, u, c, version, at)[i]);
    case PutSkill(key, p) => WriteKeepsPlain(w, t, Put(key, p));
    case Scan(key) =>
      forall k | k in t.sweep.doomed
        ensures Plain(t, k)
      {
        assert k in w.sweep.doomed ==> Plain(w, k);
      }
    case Delete(key) =>
      forall k | k in t.sweep.doomed
        ensures Plain(t, k)
      {
        assert Plain(w, k);
      }
    case _ =>
  }

  /** What holds in every reachable state. */
  predicate Sound(cfg: Cfg, w: World) {
    WorldOk(cfg, w) && SysOk(cfg, w.sys) && DoomedOk(w.sweep) && DoomedPlain(w)
  }

  lemma MoveKeepsOk(cfg: Cfg, w: World, move: Move)
    requires SysOk(cfg, w.sys) && DoomedOk(w.sweep) && Legal(cfg, w, move)
    ensures SysOk(cfg, Moved(cfg, w, move).sys) && DoomedOk(Moved(cfg, w, move).sweep)
  {
    match move
    case Act(step) => StepKeepsSysOk(cfg, w.sys, step);
    case PutSkill(key, p) => WriteKeepsStoreOk(cfg, w.sys.store, Put(key, p));
    case _ =>
  }

  lemma MoveKeepsWorld(cfg: Cfg, w: World, move: Move)
    requires Sound(cfg, w) && Possible(cfg, w, move)
    ensures Sound(cfg, Moved(cfg, w, move))
  {
    MoveKeepsOk(cfg, w, move);
    MoveKeepsPlain(cfg, w, move);
    match move {
      case Act(Begin(u, job)) => BeginKeepsWorld(cfg, w, u, job);
      case Act(Advance(u)) =>
        if w.sys.tasks[u] != [] {
          AdvanceKeepsWorld(cfg, w, u);
        } else {
          EndKeepsWorld(cfg, w, u);
        }
      case Act(Abort(u)) => AbortKeepsWorld(cfg, w, u);
      case Act(LateEnrich(u, c, i, version, at)) => LateKeepsWorld(cfg, w, u, c, i, version, at);
      case Snapshot(now, grace) => SnapshotKeepsWorld(cfg, w, now, grace);
      case Scan(key) => ScanKeepsWorld(cfg, w, key);
      case Delete(key) => DeleteKeepsWorld(cfg, w, key);
      case PutSkill(key, p) => SkillKeepsWorld(cfg, w, key, p);
      case Finish =>
    }
  }

  ghost predicate ValidMoves(cfg: Cfg, w: World, moves: seq<Move>)
    decreases |moves|
  {
    moves == [] || (Possible(cfg, w, moves[0]) && ValidMoves(cfg, Moved(cfg, w, moves[0]), moves[1..]))
  }

  ghost function Reached(cfg: Cfg, w: World, moves: seq<Move>): World
    requires ValidMoves(cfg, w, moves)
    decreases |moves|
  {
    if moves == [] then w else Reached(cfg, Moved(cfg, w, moves[0]), moves[1..])
  }

  lemma {:induction false} MovesKeepWorld(cfg: Cfg, w: World, moves: seq<Move>)
    requires ValidMoves(cfg, w, moves) && Sound(cfg, w)
    ensures Sound(cfg, Reached(cfg, w, moves))
    decreases |moves|
  {
    if moves != [] {
      MoveKeepsWorld(cfg, w, moves[0]);
      MovesKeepWorld(cfg, Moved(cfg, w, moves[0]), moves[1..]);
    }
  }

  /** No row claims the point, and no running operation is about to record a claim to it without
      putting it first. */
  predicate Unclaimed(cfg: Cfg, sys: Sys, key: Key) {
    && (forall u :: u in sys.store.rows ==> key !in ClaimKeys(cfg, u, sys.store.rows[u]))
    && (forall u :: u in sys.tasks && Recording(sys.tasks[u]) && key in ClaimKeys(cfg, u, LastRow(sys.tasks[u])) ==>
          WillPut(sys.tasks[u], |sys.tasks[u]| - 1, key))
  }

  lemma DoomedIsUnclaimed(cfg: Cfg, w: World, key: Key)
    requires Sound(cfg, w) && Legal(cfg, w, Delete(key))
    ensures key in w.sweep.touched || Unclaimed(cfg, w.sys, key)
  {
    assert key.id.first >= 1 && (Safe(w.sys.store, w.sweep, key) ==> key in w.sweep.touched);
  }

  /** In every reachable state, a point the sweep is about to delete is claimed, or about to be
      claimed as it stands, only if it was put again after the sweep scanned it. */
  lemma SweepIsSafe(cfg: Cfg, moves: seq<Move>, key: Key)
    requires ValidMoves(cfg, START, moves) && Possible(cfg, Reached(cfg, START, moves), Delete(key))
    ensures var w := Reached(cfg, START, moves); key in w.sweep.touched || Unclaimed(cfg, w.sys, key)
  {
    MovesKeepWorld(cfg, START, moves);
    DoomedIsUnclaimed(cfg, Reached(cfg, START, moves), key);
  }

  /** And a point the sweep is about to delete is no skill's, no synthetic chunk, not of unknown age and
      not young, unless it was put again after its scan. */
  lemma OnlyOldPlainPointsAreSwept(cfg: Cfg, moves: seq<Move>, key: Key)
    requires ValidMoves(cfg, START, moves) && Possible(cfg, Reached(cfg, START, moves), Delete(key))
    requires key in Reached(cfg, START, moves).sys.store.points
    ensures var w := Reached(cfg, START, moves);
      var p := w.sys.store.points[key];
      key in w.sweep.touched
      || ((p.artifact == CodeChunk || p.artifact == DocChunk) && !p.skill && p.at.Some? && p.at.value < w.sweep.cutoff)
  {
    MovesKeepWorld(cfg, START, moves);
    assert Plain(Reached(cfg, START, moves), key);
  }

  // ------------------------------------------------------------ what stays backed

  /** Every step is safe at the level in the state it is made in, and no point that was put again
      after its scan is deleted. */
  predicate Careful(cfg: Cfg, w: World, move: Move, level: Level) {
    match move
    case Act(step) => StepSafe(cfg, w.sys, step, level)
    case Delete(key) => w.sweep.Active? ==> key !in w.sweep.touched
    case _ => true
  }

  ghost predicate CarefulMoves(cfg: Cfg, w: World, moves: seq<Move>, level: Level)
    requires ValidMoves(cfg, w, moves)
    decreases |moves|
  {
    moves == [] || (Careful(cfg, w, moves[0], level) && CarefulMoves(cfg, Moved(cfg, w, moves[0]), moves[1..], level))
  }

  /** The delete of a point nobody claims or is about to claim takes nothing from anyone. */
  lemma DeleteKeepsInv(cfg: Cfg, w: World, key: Key, level: Level)
    requires Inv(cfg, w.sys, level) && Legal(cfg, w, Delete(key)) && Unclaimed(cfg, w.sys, key)
    ensures Inv(cfg, Moved(cfg, w, Delete(key)).sys, level)
  {
    var s, next := w.sys.store, Moved(cfg, w, Delete(key)).sys;
    assert forall k, stamp :: k != key && Stamped(s, k, stamp, level) ==> Stamped(next.store, k, stamp, level);
    forall u | u in next.store.rows
      ensures RowOk(cfg, next, u, level)
    {
      assert RowOk(cfg, w.sys, u, level);
    }
    forall u | u in next.tasks
      ensures TaskOk(cfg, next.store, u, next.tasks[u], level)
    {
      DeleteKeepsTask(cfg, w.sys, next.store, u, key, level);
    }
  }

  /** A skill's chunk is no resource's. */
  lemma SkillKeepsInv(cfg: Cfg, w: World, key: Key, p: Point, level: Level)
    requires Inv(cfg, w.sys, level) && Legal(cfg, w, PutSkill(key, p))
    ensures Inv(cfg, Moved(cfg, w, PutSkill(key, p)).sys, level)
  {
    var next := Moved(cfg, w, PutSkill(key, p)).sys;
    forall u | u in next.store.rows
      ensures RowOk(cfg, next, u, level)
    {
      Frame(cfg, w.sys, Put(key, p), u, level);
    }
    forall u | u in next.tasks
      ensures TaskOk(cfg, next.store, u, next.tasks[u], level)
    {
      Frame(cfg, w.sys, Put(key, p), u, level);
    }
  }

  lemma DeleteKeepsTask(cfg: Cfg, sys: Sys, t: Store, u: Uri, key: Key, level: Level)
    requires u in sys.tasks && TaskOk(cfg, sys.store, u, sys.tasks[u], level) && Unclaimed(cfg, sys, key)
    requires t == sys.store.(points := map k | k in sys.store.points && k != key :: sys.store.points[k])
    ensures TaskOk(cfg, t, u, sys.tasks[u], level)
  {
    var todo := sys.tasks[u];
    if Recording(todo) {
      assert RecordOk(cfg, sys.store, u, todo, LastRow(todo), level);
      forall k | k in ClaimKeys(cfg, u, LastRow(todo))
        ensures Stamped(t, k, LastRow(todo).stamp, level) || WillPut(todo, |todo| - 1, k)
      {
      }
    }
  }

  lemma {:induction false} MovesKeepInv(cfg: Cfg, w: World, moves: seq<Move>, level: Level)
    requires ValidMoves(cfg, w, moves) && CarefulMoves(cfg, w, moves, level)
    requires Sound(cfg, w) && Inv(cfg, w.sys, level)
    ensures Inv(cfg, Reached(cfg, w, moves).sys, level)
    decreases |moves|
  {
    if moves != [] {
      MoveKeepsWorld(cfg, w, moves[0]);
      match moves[0] {
        case Act(step) =>
          StepKeepsInv(cfg, w.sys, step, level);
        case PutSkill(key, p) => SkillKeepsInv(cfg, w, key, p, level);
        case Delete(key) =>
          DoomedIsUnclaimed(cfg, w, key);
          DeleteKeepsInv(cfg, w, key, level);
        case _ =>
      }
      MovesKeepInv(cfg, Moved(cfg, w, moves[0]), moves[1..], level);
    }
  }

  /** Whether an operation with unmarked deletes is open on `u` after the move. */
  predicate OpenAfter(cfg: Cfg, sys: Sys, move: Move, u: Uri, open: bool) {
    if !move.Act? then open
    else if move.step.Begin? && move.step.uri == u && Unmarked(cfg, sys.store, u, move.step.job) then true
    else open && !EndsTask(sys, move.step, u)
  }

  /** The step writes or deletes the row of `u`. */
  predicate EndsTask(sys: Sys, step: Step, u: Uri) {
    step == Advance(u) && u in sys.tasks && sys.tasks[u] != [] && (sys.tasks[u][0].Record? || sys.tasks[u][0].Forget?)
  }

  /** In the run an operation with unmarked deletes was begun on `u` and has not got to its row. */
  ghost predicate OpenAtEnd(cfg: Cfg, w: World, moves: seq<Move>, u: Uri, open: bool)
    requires ValidMoves(cfg, w, moves)
    decreases |moves|
  {
    if moves == [] then open
    else OpenAtEnd(cfg, Moved(cfg, w, moves[0]), moves[1..], u, OpenAfter(cfg, w.sys, moves[0], u, open))
  }

  /** Points of `u` are dropped under its unmarked row only while such an operation is open. */
  predicate CoveredUnless(sys: Sys, u: Uri, open: bool) {
    open || (u !in sys.exposed && (u in sys.tasks ==> Runs.Covered(sys.store, u, sys.tasks[u])))
  }

  lemma MoveCovers(cfg: Cfg, w: World, move: Move, u: Uri, open: bool)
    requires Own(w.sys) && CoveredUnless(w.sys, u, open) && Legal(cfg, w, move)
    ensures var next := Moved(cfg, w, move).sys;
      Own(next) && CoveredUnless(next, u, OpenAfter(cfg, w.sys, move, u, open))
  {
    if move.Act? {
      StepIsOwn(cfg, w.sys, move.step);
      if EndsTask(w.sys, move.step, u) {
        assert OwnTask(u, w.sys.tasks[u]) && |w.sys.tasks[u]| == 1;
      } else if !OpenAfter(cfg, w.sys, move, u, open) {
        UncoveredStep(cfg, w.sys, move.step, u);
      }
    }
  }

  lemma {:induction false} MovesCover(cfg: Cfg, w: World, moves: seq<Move>, u: Uri, open: bool)
    requires ValidMoves(cfg, w, moves) && Own(w.sys) && CoveredUnless(w.sys, u, open)
    ensures CoveredUnless(Reached(cfg, w, moves).sys, u, OpenAtEnd(cfg, w, moves, u, open))
    decreases |moves|
  {
    if moves != [] {
      MoveCovers(cfg, w, moves[0], u, open);
      MovesCover(cfg, Moved(cfg, w, moves[0]), moves[1..], u, OpenAfter(cfg, w.sys, moves[0], u, open));
    }
  }

  /** Sweeps among the writers leave what rows claim backed: after any run of safe steps and of sweeps
      that delete no point put again after its scan, an indexed row has all its points and ids, unless
      an operation with unmarked deletes was begun on the resource and has not got to its row. */
  lemma SweptClaimsAreBacked(cfg: Cfg, moves: seq<Move>, level: Level, u: Uri)
    requires ValidMoves(cfg, START, moves) && CarefulMoves(cfg, START, moves, level)
    requires !OpenAtEnd(cfg, START, moves, u, false)
    requires var s := Reached(cfg, START, moves).sys.store; u in s.rows && s.rows[u].status == Indexed
    ensures var s := Reached(cfg, START, moves).sys.store;
      Backed(cfg, s, u, s.rows[u], level) && IdsBacked(s, s.rows[u], level)
  {
    MovesKeepInv(cfg, START, moves, level);
    MovesCover(cfg, START, moves, u, false);
    var sys := Reached(cfg, START, moves).sys;
    assert RowOk(cfg, sys, u, level);
    BackedMeansIdsBacked(cfg, sys.store, u, sys.store.rows[u], level);
  }

  // ------------------------------------------------------------ the exception is reachable

  lemma {:induction false} MovesConcat(cfg: Cfg, w: World, a: seq<Move>, b: seq<Move>)
    requires ValidMoves(cfg, w, a) && ValidMoves(cfg, Reached(cfg, w, a), b)
    ensures ValidMoves(cfg, w, a + b) && Reached(cfg, w, a + b) == Reached(cfg, Reached(cfg, w, a), b)
    decreases |a|
  {
    if a == [] {
      assert a + b == b;
    } else {
      assert (a + b)[0] == a[0] && (a + b)[1..] == a[1..] + b;
      MovesConcat(cfg, Moved(cfg, w, a[0]), a[1..], b);
    }
  }

  lemma OneMove(cfg: Cfg, w: World, move: Move)
    requires Possible(cfg, w, move)
    ensures ValidMoves(cfg, w, [move]) && Reached(cfg, w, [move]) == Moved(cfg, w, move)
  {
    assert [move][1..] == [];
  }

  /** The same sweep, but for the points put again. */
  predicate SameSweep(a: Sweeping, b: Sweeping) {
    match a
    case Idle => b.Idle?
    case Active(known, cutoff, seen, doomed, _) =>
      b.Active? && b.known == known && b.cutoff == cutoff && b.seen == seen && b.doomed == doomed
  }

  /** The task of `u` makes its next `n` writes while the sweep stands still. */
  lemma {:induction false} AdvanceMoves(cfg: Cfg, w: World, u: Uri, n: nat) returns (moves: seq<Move>)
    requires u in w.sys.tasks && n <= |w.sys.tasks[u]|
    ensures ValidMoves(cfg, w, moves)
    ensures var r := Reached(cfg, w, moves);
      && r.sys.store == ApplyAll(w.sys.store, w.sys.tasks[u][..n])
      && r.sys.tasks == w.sys.tasks[u := w.sys.tasks[u][n..]]
      && r.born == w.born && SameSweep(w.sweep, r.sweep)
      && (w.sweep.Active? ==> r.sweep.touched <= w.sweep.touched + w.sweep.seen)
  {
    var todo := w.sys.tasks[u];
    if n == 0 {
      moves := [];
      assert todo[..0] == [] && todo[0..] == todo;
    } else {
      var before := AdvanceMoves(cfg, w, u, n - 1);
      var mid := Reached(cfg, w, before);
      ApplyNext(w.sys.store, todo, n - 1);
      OneMove(cfg, mid, Act(Advance(u)));
      MovesConcat(cfg, w, before, [Act(Advance(u))]);
      moves := before + [Act(Advance(u))];
    }
  }

  /** An operation begins and makes its first `n` writes. */
  lemma BeginMoves(cfg: Cfg, w: World, u: Uri, job: Job, n: nat) returns (moves: seq<Move>)
    requires Possible(cfg, w, Act(Begin(u, job))) && Writes(job) && n <= |PlanOf(cfg, w.sys.store, u, job)|
    ensures ValidMoves(cfg, w, moves)
    ensures var r, plan := Reached(cfg, w, moves), PlanOf(cfg, w.sys.store, u, job);
      && r.sys.store == ApplyAll(w.sys.store, plan[..n])
      && r.sys.tasks == w.sys.tasks[u := plan[n..]]
      && r.born == w.born[u := BornAt(job)] && SameSweep(w.sweep, r.sweep)
  {
    OneMove(cfg, w, Act(Begin(u, job)));
    var begun := Moved(cfg, w, Act(Begin(u, job)));
    var more := AdvanceMoves(cfg, begun, u, n);
    MovesConcat(cfg, w, [Act(Begin(u, job))], more);
    moves := [Act(Begin(u, job))] + more;
  }

  /** The row of a first reindex. */
  function FirstRow(cfg: Cfg, u: Uri, c: Content, version: nat): Row {
    Row(Stamp(Sha(c), version), Ids(u, RawChunks(cfg, u, c)), Indexed, false)
  }

  lemma FirstPlan(cfg: Cfg, u: Uri, c: Content, version: nat, at: nat)
    ensures ReindexPlan(cfg, EMPTY, u, c, version, at)
      == [Mark(u)] + EnrichPlan(cfg, u, c, version, at) + [Record(u, FirstRow(cfg, u, c, version))]
  {
    var ids := Ids(u, RawChunks(cfg, u, c));
    assert IdsIn(EMPTY, u, Code) - ids == {} && IdsIn(EMPTY, u, Text) - ids == {};
  }

  /** A reindex into empty stores makes all its writes but the last. */
  lemma PutByReindex(cfg: Cfg, w: World, u: Uri, c: Content, version: nat, at: nat) returns (moves: seq<Move>)
    requires w.sys.store == EMPTY && u in w.sys.tasks && w.sys.tasks[u] == ReindexPlan(cfg, EMPTY, u, c, version, at)
    ensures ValidMoves(cfg, w, moves)
    ensures var r := Reached(cfg, w, moves);
      && r.sys.store.rows == map[u := STUB]
      && r.sys.tasks == w.sys.tasks[u := [Record(u, FirstRow(cfg, u, c, version))]]
      && r.born == w.born && SameSweep(w.sweep, r.sweep)
      && (w.sweep.Active? ==> r.sweep.touched <= w.sweep.touched + w.sweep.seen)
      && forall key :: key in Keys(u, RawChunks(cfg, u, c)) ==>
           key in r.sys.store.points && FromChunk(u, RawChunks(cfg, u, c), key, Stamp(Sha(c), version), at, r.sys.store.points[key])
  {
    var chunks, stamp := InOrder(RawChunks(cfg, u, c)), Stamp(Sha(c), version);
    var plan, n, puts := w.sys.tasks[u], 1 + |chunks|, EnrichPlan(cfg, u, c, version, at);
    FirstPlan(cfg, u, c, version, at);
    assert plan[..n] == [Mark(u)] + puts && plan[n..] == [Record(u, FirstRow(cfg, u, c, version))];
    moves := AdvanceMoves(cfg, w, u, n);
    ApplyAllConcat(EMPTY, [Mark(u)], puts);
    ApplyOne(EMPTY, Mark(u));
    PutsEffect(Apply(EMPTY, Mark(u)), u, chunks, stamp, at);
    InOrderChunks(cfg, u, c);
  }

  /** A reindex puts its chunks at time 0 and dies before it writes its row. */
  lemma DeadReindex(cfg: Cfg, u: Uri, c: Content, version: nat) returns (moves: seq<Move>)
    requires cfg.daemon(u.owner)
    ensures ValidMoves(cfg, START, moves)
    ensures var w := Reached(cfg, START, moves);
      && w.sys.tasks == map[] && w.born == map[] && w.sweep == Idle && w.sys.store.rows == map[u := STUB]
      && forall key :: key in Keys(u, RawChunks(cfg, u, c)) ==>
           key in w.sys.store.points && FromChunk(u, RawChunks(cfg, u, c), key, Stamp(Sha(c), version), 0, w.sys.store.points[key])
  {
    var begin := Act(Begin(u, Reindex(c, version, 0)));
    OneMove(cfg, START, begin);
    var puts := PutByReindex(cfg, Moved(cfg, START, begin), u, c, version, 0);
    MovesConcat(cfg, START, [begin], puts);
    OneMove(cfg, Reached(cfg, START, [begin] + puts), Act(Abort(u)));
    MovesConcat(cfg, START, [begin] + puts, [Act(Abort(u))]);
    moves := [begin] + puts + [Act(Abort(u))];
  }

  lemma InOrderChunks(cfg: Cfg, u: Uri, c: Content)
    ensures Keys(u, InOrder(RawChunks(cfg, u, c))) == Keys(u, RawChunks(cfg, u, c))
    ensures forall ch :: ch in InOrder(RawChunks(cfg, u, c)) ==> ch in RawChunks(cfg, u, c)
  {
    var raw := RawChunks(cfg, u, c);
    if raw != [] {
      BucketedSame(u, raw, CollectionOf(raw[0]));
      forall ch | ch in InOrder(raw)
        ensures ch in raw
      {
        PickMembers(raw, InCollection(CollectionOf(raw[0])), ch);
        PickMembers(raw, InCollection(Other(CollectionOf(raw[0]))), ch);
      }
    }
  }

  /** A sweep then takes its snapshot at time 1 without grace and scans one of the points. */
  lemma ScannedOrphan(cfg: Cfg, u: Uri, c: Content, version: nat, key: Key) returns (moves: seq<Move>)
    requires cfg.daemon(u.owner) && key in Keys(u, RawChunks(cfg, u, c))
    ensures ValidMoves(cfg, START, moves)
    ensures var w := Reached(cfg, START, moves);
      && w.sys.tasks == map[] && w.born == map[]
      && w.sweep.Active? && w.sweep.cutoff == 1 && key in w.sweep.doomed
  {
    var dead := DeadReindex(cfg, u, c, version);
    var w := Reached(cfg, START, dead);
    OneMove(cfg, w, Snapshot(1, 0));
    MovesConcat(cfg, START, dead, [Snapshot(1, 0)]);
    var sweeping := Moved(cfg, w, Snapshot(1, 0));
    assert Known(w.sys.store) == {};
    OneMove(cfg, sweeping, Scan(key));
    MovesConcat(cfg, START, dead + [Snapshot(1, 0)], [Scan(key)]);
    moves := dead + [Snapshot(1, 0)] + [Scan(key)];
  }

  /** The exception is real: whatever a daemon-indexed content is chunked into, there is a run in which
      the sweep is about to delete one of its points under an indexed row that claims it, a reindex
      having revived the point after its scan; and the delete leaves the claim without its point. */
  lemma RevivedPointIsDeleted(cfg: Cfg, u: Uri, c: Content, version: nat, key: Key) returns (moves: seq<Move>)
    requires cfg.daemon(u.owner) && key in Keys(u, RawChunks(cfg, u, c))
    ensures ValidMoves(cfg, START, moves)
    ensures var w := Reached(cfg, START, moves);
      && Possible(cfg, w, Delete(key))
      && u in w.sys.store.rows && w.sys.store.rows[u].status == Indexed
      && key in ClaimKeys(cfg, u, w.sys.store.rows[u]) && key in w.sys.store.points
      && Moved(cfg, w, Delete(key)).sys.store.rows == w.sys.store.rows
      && key !in Moved(cfg, w, Delete(key)).sys.store.points
  {
    var scanned := ScannedOrphan(cfg, u, c, version, key);
    var w := Reached(cfg, START, scanned);
    var job := Reindex(c, version, 1);
    var plan := PlanOf(cfg, w.sys.store, u, job);
    var again := BeginMoves(cfg, w, u, job, |plan|);
    assert plan[..|plan|] == plan;
    MovesConcat(cfg, START, scanned, again);
    moves := scanned + again;
    var chunks, drops, row := ReindexPlanShape(cfg, w.sys.store, u, c, version, 1);
    ShapedEffect(w.sys.store, u, true, chunks, 1, drops, row);
    RawIsClaimed(cfg, u, c, row, key);
  }

  // ------------------------------------------------------------ every timing condition is needed

  /** The sweep is about to delete a point that a row claims and that was not put again. */
  predicate TakesClaimed(cfg: Cfg, w: World, u: Uri, key: Key) {
    && Legal(cfg, w, Delete(key)) && key !in w.sweep.touched
    && u in w.sys.store.rows && key in ClaimKeys(cfg, u, w.sys.store.rows[u])
  }

  /** One move of the run, made when it is legal, is not timely; all the others are. */
  ghost predicate OneUntimely(cfg: Cfg, before: seq<Move>, move: Move, after: seq<Move>) {
    ValidMoves(cfg, START, before)
    && (var w := Reached(cfg, START, before);
        Legal(cfg, w, move) && !Timely(w, move) && ValidMoves(cfg, Moved(cfg, w, move), after))
  }

  ghost function EndOf(cfg: Cfg, before: seq<Move>, move: Move, after: seq<Move>): World
    requires OneUntimely(cfg, before, move, after)
  {
    Reached(cfg, Moved(cfg, Reached(cfg, START, before), move), after)
  }

  /** The point is scanned, then the reindex records its row. */
  lemma ScanThenRecord(cfg: Cfg, w: World, u: Uri, c: Content, version: nat, key: Key) returns (moves: seq<Move>)
    requires w.sweep.Active? && w.sweep.known == {} && w.sweep.seen == {} && w.sweep.touched == {} && w.sweep.cutoff == 1
    requires u in w.sys.tasks && w.sys.tasks[u] == [Record(u, FirstRow(cfg, u, c, version))]
    requires cfg.daemon(u.owner) && key in Keys(u, RawChunks(cfg, u, c)) && key in w.sys.store.points
    requires FromChunk(u, RawChunks(cfg, u, c), key, Stamp(Sha(c), version), 0, w.sys.store.points[key])
    ensures ValidMoves(cfg, w, moves) && TakesClaimed(cfg, Reached(cfg, w, moves), u, key)
  {
    OneMove(cfg, w, Scan(key));
    OneMove(cfg, Moved(cfg, w, Scan(key)), Act(Advance(u)));
    MovesConcat(cfg, w, [Scan(key)], [Act(Advance(u))]);
    moves := [Scan(key)] + [Act(Advance(u))];
    RawIsClaimed(cfg, u, c, FirstRow(cfg, u, c, version), key);
  }

  /** A sweep may take its snapshot only when every operation in flight is young. */
  lemma OldOperationIsSwept(cfg: Cfg, u: Uri, c: Content, version: nat, key: Key) returns (before: seq<Move>, after: seq<Move>)
    requires cfg.daemon(u.owner) && key in Keys(u, RawChunks(cfg, u, c))
    ensures OneUntimely(cfg, before, Snapshot(1, 0), after)
    ensures TakesClaimed(cfg, EndOf(cfg, before, Snapshot(1, 0), after), u, key)
  {
    var begin := Act(Begin(u, Reindex(c, version, 0)));
    OneMove(cfg, START, begin);
    var puts := PutByReindex(cfg, Moved(cfg, START, begin), u, c, version, 0);
    MovesConcat(cfg, START, [begin], puts);
    before := [begin] + puts;
    var w := Reached(cfg, START, before);
    assert u in w.born && w.born[u] == 0;
    assert Known(w.sys.store) == {};
    after := ScanThenRecord(cfg, Moved(cfg, w, Snapshot(1, 0)), u, c, version, key);
  }

  /** An operation that begins while a sweep is active must be young. */
  lemma OldBeginIsSwept(cfg: Cfg, u: Uri, c: Content, version: nat, key: Key) returns (before: seq<Move>, after: seq<Move>)
    requires cfg.daemon(u.owner) && key in Keys(u, RawChunks(cfg, u, c))
    ensures OneUntimely(cfg, before, Act(Begin(u, Reindex(c, version, 0))), after)
    ensures TakesClaimed(cfg, EndOf(cfg, before, Act(Begin(u, Reindex(c, version, 0))), after), u, key)
  {
    var begin := Act(Begin(u, Reindex(c, version, 0)));
    before := [Snapshot(1, 0)];
    OneMove(cfg, START, Snapshot(1, 0));
    assert Known(EMPTY) == {};
    var begun := Moved(cfg, Moved(cfg, START, Snapshot(1, 0)), begin);
    var puts := PutByReindex(cfg, begun, u, c, version, 0);
    var rest := ScanThenRecord(cfg, Reached(cfg, begun, puts), u, c, version, key);
    MovesConcat(cfg, begun, puts, rest);
    after := puts + rest;
  }

  /** The place of a chunk in an enrichment. */
  lemma EnrichIndex(cfg: Cfg, u: Uri, c: Content, version: nat, at: nat, key: Key) returns (i: nat)
    requires key in Keys(u, RawChunks(cfg, u, c))
    ensures var plan := EnrichPlan(cfg, u, c, version, at);
      && i < |plan| && plan[i].Put? && plan[i].key == key
      && FromChunk(u, RawChunks(cfg, u, c), key, Stamp(Sha(c), version), at, plan[i].point)
  {
    InOrderChunks(cfg, u, c);
    var chunks := InOrder(RawChunks(cfg, u, c));
    var ch :| ch in chunks && KeyOf(u, ch) == key;
    i :| 0 <= i < |chunks| && chunks[i] == ch;
  }

  /** A late enrichment write must be no older than the operation it overtakes. */
  lemma OldLateWriteIsSwept(cfg: Cfg, u: Uri, c: Content, version: nat, key: Key)
      returns (before: seq<Move>, i: nat, after: seq<Move>)
    requires cfg.daemon(u.owner) && key in Keys(u, RawChunks(cfg, u, c))
    ensures OneUntimely(cfg, before, Act(LateEnrich(u, c, i, version, 0)), after)
    ensures !Reached(cfg, START, before).sweep.Active?
    ensures TakesClaimed(cfg, EndOf(cfg, before, Act(LateEnrich(u, c, i, version, 0)), after), u, key)
  {
    var begin := Act(Begin(u, Reindex(c, version, 1)));
    OneMove(cfg, START, begin);
    var puts := PutByReindex(cfg, Moved(cfg, START, begin), u, c, version, 1);
    MovesConcat(cfg, START, [begin], puts);
    before := [begin] + puts;
    i := EnrichIndex(cfg, u, c, version, 0, key);
    var w := Reached(cfg, START, before);
    assert u in w.born && w.born[u] == 1;
    var late := Moved(cfg, w, Act(LateEnrich(u, c, i, version, 0)));
    assert Known(late.sys.store) == {};
    OneMove(cfg, late, Snapshot(1, 0));
    var rest := ScanThenRecord(cfg, Moved(cfg, late, Snapshot(1, 0)), u, c, version, key);
    MovesConcat(cfg, late, [Snapshot(1, 0)], rest);
    after := [Snapshot(1, 0)] + rest;
  }

  /** The reindex records its row and is over. */
  lemma EndReindex(cfg: Cfg, w: World, u: Uri) returns (moves: seq<Move>)
    requires u in w.sys.tasks && |w.sys.tasks[u]| == 1 && w.sys.tasks[u][0].Record?
    ensures ValidMoves(cfg, w, moves)
    ensures var r := Reached(cfg, w, moves);
      r.sys.store == Apply(w.sys.store, w.sys.tasks[u][0]) && r.born == w.born - {u} && r.sweep == w.sweep
  {
    var next := Moved(cfg, w, Act(Advance(u)));
    OneMove(cfg, w, Act(Advance(u)));
    OneMove(cfg, next, Act(Advance(u)));
    MovesConcat(cfg, w, [Act(Advance(u))], [Act(Advance(u))]);
    moves := [Act(Advance(u))] + [Act(Advance(u))];
  }

  /** A reindex from the first write to the last while a sweep has taken its snapshot and no more. */
  lemma ReindexUnderSweep(cfg: Cfg, u: Uri, c: Content, version: nat) returns (moves: seq<Move>)
    requires cfg.daemon(u.owner)
    ensures ValidMoves(cfg, START, moves)
    ensures var w := Reached(cfg, START, moves);
      && u !in w.born && SameSweep(Active({}, 1, {}, {}, {}), w.sweep) && w.sweep.touched == {}
      && u in w.sys.store.rows && w.sys.store.rows[u] == FirstRow(cfg, u, c, version)
  {
    var sweeping, begin := Moved(cfg, START, Snapshot(1, 0)), Act(Begin(u, Reindex(c, version, 1)));
    assert Known(EMPTY) == {};
    OneMove(cfg, START, Snapshot(1, 0));
    OneMove(cfg, sweeping, begin);
    var begun := Moved(cfg, sweeping, begin);
    MovesConcat(cfg, START, [Snapshot(1, 0)], [begin]);
    var puts := PutByReindex(cfg, begun, u, c, version, 1);
    moves := [Snapshot(1, 0)] + [begin] + puts;
    MovesConcat(cfg, START, [Snapshot(1, 0)] + [begin], puts);
    var over := EndReindex(cfg, Reached(cfg, START, moves), u);
    MovesConcat(cfg, START, moves, over);
    moves := moves + over;
  }

  /** Nor may it be older than the cutoff of a sweep under way, even when the operation is over. */
  lemma OldLateWriteUnderSweepIsSwept(cfg: Cfg, u: Uri, c: Content, version: nat, key: Key)
      returns (before: seq<Move>, i: nat, after: seq<Move>)
    requires cfg.daemon(u.owner) && key in Keys(u, RawChunks(cfg, u, c))
    ensures OneUntimely(cfg, before, Act(LateEnrich(u, c, i, version, 0)), after)
    ensures u !in Reached(cfg, START, before).born
    ensures TakesClaimed(cfg, EndOf(cfg, before, Act(LateEnrich(u, c, i, version, 0)), after), u, key)
  {
    before := ReindexUnderSweep(cfg, u, c, version);
    i := EnrichIndex(cfg, u, c, version, 0, key);
    var late := Moved(cfg, Reached(cfg, START, before), Act(LateEnrich(u, c, i, version, 0)));
    OneMove(cfg, late, Scan(key));
    after := [Scan(key)];
    RawIsClaimed(cfg, u, c, FirstRow(cfg, u, c, version), key);
  }
}
