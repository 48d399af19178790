/** Whole runs of the system in `Claims`: what holds after every run, when an indexed row's claims
    are backed in terms of the operations that were begun, and how to extend a run. */
module Runs {
  import opened Stores
  import opened Plans
  import opened Claims

  // ------------------------------------------------------------ every resource keeps to itself

  predicate OwnIds(u: Uri, row: Row) {
    forall id :: id in row.ids ==> id.uri == u
  }

  predicate OwnTask(u: Uri, todo: seq<Write>) {
    TaskShape(u, todo) && forall j :: 0 <= j < |todo| && todo[j].Record? ==> OwnIds(u, todo[j].row)
  }

  lemma OwnIsLocal(u: Uri, todo: seq<Write>)
    requires OwnTask(u, todo)
    ensures forall w :: w in todo ==> Local(w) && Target(w) == u
  {
  }

  predicate OwnRows(s: Store) {
    forall u :: u in s.rows ==> OwnIds(u, s.rows[u])
  }

  predicate Own(sys: Sys) {
    && OwnRows(sys.store)
    && (forall u :: u in sys.tasks ==> OwnTask(u, sys.tasks[u]))
  }

  lemma ShapedIsOwn(u: Uri, marked: bool, chunks: seq<Chunk>, at: nat, drops: seq<Write>, row: Row)
    requires OwnIds(u, row) && forall w :: w in drops ==> w.Drop? && w.uri == u && Local(w)
    ensures OwnTask(u, Shaped(u, marked, chunks, at, drops, row))
  {
    var todo := Shaped(u, marked, chunks, at, drops, row);
    var m := if marked then 1 else 0;
    ShapedParts(u, marked, chunks, at, drops, row);
    forall j | m + |chunks| <= j < |todo| - 1
      ensures todo[j].Drop? && todo[j].uri == u && Local(todo[j])
    {
      assert todo[j] in drops;
    }
  }

  lemma NewRowIsOwn(cfg: Cfg, u: Uri, prior: Option<Row>, c: Content, version: nat, graph: GraphOutcome)
    requires prior.Some? ==> OwnIds(u, prior.value)
    ensures OwnIds(u, NewRow(cfg, u, prior, c, version, Classify(prior, c, version), graph))
  {
  }

  lemma IngestIsOwn(cfg: Cfg, prior: Option<Row>, u: Uri, c: Content, version: nat, at: nat, lead: Collection, graph: GraphOutcome)
    requires prior.Some? ==> OwnIds(u, prior.value)
    ensures OwnTask(u, IngestPlan(cfg, prior, u, c, version, at, lead, graph))
  {
    var action := Classify(prior, c, version);
    var vector := Bucketed(VectorChunks(cfg, u, c, action, graph != ExtractFailed), lead);
    var row := NewRow(cfg, u, prior, c, version, action, graph);
    var stale := (if prior.Some? then prior.value.ids else {}) - row.ids;
    NewRowIsOwn(cfg, u, prior, c, version, graph);
    ShapedIsOwn(u, vector != [], vector, at, Drops(u, stale), row);
    assert IngestPlan(cfg, prior, u, c, version, at, lead, graph) == Shaped(u, vector != [], vector, at, Drops(u, stale), row);
  }

  lemma ReindexIsOwn(cfg: Cfg, s: Store, u: Uri, c: Content, version: nat, at: nat)
    ensures OwnTask(u, ReindexPlan(cfg, s, u, c, version, at))
  {
    var chunks, ids := InOrder(RawChunks(cfg, u, c)), Ids(u, RawChunks(cfg, u, c));
    var drops := DropStale(u, Code, IdsIn(s, u, Code) - ids) + DropStale(u, Text, IdsIn(s, u, Text) - ids);
    var row := Row(Stamp(Sha(c), version), ids, Indexed, u in s.rows && s.rows[u].graphFresh);
    ShapedIsOwn(u, true, chunks, at, drops, row);
    assert ReindexPlan(cfg, s, u, c, version, at) == Shaped(u, true, chunks, at, drops, row);
  }

  lemma PlanIsOwn(cfg: Cfg, s: Store, u: Uri, job: Job)
    requires CanBegin(cfg, s, u, job) && (u in s.rows ==> OwnIds(u, s.rows[u]))
    ensures OwnTask(u, PlanOf(cfg, s, u, job))
  {
    match job
    case Ingest(c, version, at, lead, graph) => IngestIsOwn(cfg, Prior(s, u), u, c, version, at, lead, graph);
    case Reindex(c, version, at) => ReindexIsOwn(cfg, s, u, c, version, at);
    case Remove =>
    case Enrich(_, _, _) =>
    case DropMissing =>
  }

  lemma StepIsOwn(cfg: Cfg, sys: Sys, step: Step)
    requires Own(sys) && Enabled(cfg, sys, step)
    ensures Own(After(cfg, sys, step))
  {
    match step
    case Begin(u, job) => PlanIsOwn(cfg, sys.store, u, job);
    case Advance(u) =>
      var todo := sys.tasks[u];
      assert OwnTask(u, todo);
      if todo != [] {
        RestShape(u, todo);
        assert OwnTask(u, todo[1..]);
      }
    case Abort(_) =>
    case LateEnrich(_, _, _, _, _) =>
  }

  /** No run, safe or not, makes a resource claim, delete or record what belongs to another. */
  lemma {:induction false} RunIsOwn(cfg: Cfg, steps: seq<Step>)
    requires ValidRun(cfg, steps)
    ensures Own(Final(cfg, steps))
  {
    if steps != [] {
      RunIsOwn(cfg, steps[..|steps| - 1]);
      StepIsOwn(cfg, Final(cfg, steps[..|steps| - 1]), steps[|steps| - 1]);
    }
  }

  // ------------------------------------------------------------ unmarked deletes

  /** The operation deletes points under a row it has not marked pending: a removal of a row that
      claims points, or an ingest that puts no chunk and leaves some of the old ids behind. */
  predicate Unmarked(cfg: Cfg, s: Store, u: Uri, job: Job) {
    match job
    case Remove => u in s.rows && s.rows[u].ids != {}
    case Ingest(c, version, _, _, graph) =>
      var action := Classify(Prior(s, u), c, version);
      && VectorChunks(cfg, u, c, action, graph != ExtractFailed) == []
      && u in s.rows && !(s.rows[u].ids <= NewRow(cfg, u, Prior(s, u), c, version, action, graph).ids)
    case _ => false
  }

  predicate BeginsUnmarked(cfg: Cfg, steps: seq<Step>, i: nat, u: Uri)
    requires i < |steps|
  {
    steps[i].Begin? && steps[i].uri == u && Unmarked(cfg, Final(cfg, steps[..i]).store, u, steps[i].job)
  }

  /** The step writes or deletes the row of `u`. */
  predicate Settles(cfg: Cfg, steps: seq<Step>, j: nat, u: Uri)
    requires j < |steps|
  {
    var sys := Final(cfg, steps[..j]);
    steps[j] == Advance(u) && u in sys.tasks && sys.tasks[u] != [] && (sys.tasks[u][0].Record? || sys.tasks[u][0].Forget?)
  }

  /** The `i`-th step begins an operation with unmarked deletes, and no row has been written or
      deleted since. */
  predicate UnsettledFrom(cfg: Cfg, steps: seq<Step>, i: nat, u: Uri)
    requires i < |steps|
  {
    BeginsUnmarked(cfg, steps, i, u) && forall j :: i < j < |steps| ==> !Settles(cfg, steps, j, u)
  }

  ghost predicate Unsettled(cfg: Cfg, steps: seq<Step>, u: Uri) {
    exists i :: 0 <= i < |steps| && UnsettledFrom(cfg, steps, i, u)
  }

  lemma SamePast(cfg: Cfg, steps: seq<Step>, n: nat, i: nat, u: Uri)
    requires i < n <= |steps|
    ensures BeginsUnmarked(cfg, steps, i, u) <==> BeginsUnmarked(cfg, steps[..n], i, u)
    ensures Settles(cfg, steps, i, u) <==> Settles(cfg, steps[..n], i, u)
  {
    assert steps[..n][..i] == steps[..i];
  }

  lemma UnsettledStays(cfg: Cfg, steps: seq<Step>, u: Uri)
    requires steps != [] && Unsettled(cfg, steps[..|steps| - 1], u) && !Settles(cfg, steps, |steps| - 1, u)
    ensures Unsettled(cfg, steps, u)
  {
    var n := |steps| - 1;
    var i :| 0 <= i < n && UnsettledFrom(cfg, steps[..n], i, u);
    forall j | i < j < |steps|
      ensures !Settles(cfg, steps, j, u)
    {
      if j < n {
        SamePast(cfg, steps, n, j, u);
      }
    }
    SamePast(cfg, steps, n, i, u);
    assert UnsettledFrom(cfg, steps, i, u);
  }

  /** Whatever the task deletes, it deletes under a row that is absent or pending. */
  predicate Covered(s: Store, u: Uri, todo: seq<Write>) {
    forall j :: 0 <= j < |todo| && todo[j].Drop? ==> todo[0].Mark? || u !in s.rows || s.rows[u].status == Pending
  }

  lemma PlanIsCovered(cfg: Cfg, s: Store, u: Uri, job: Job)
    requires CanBegin(cfg, s, u, job) && !Unmarked(cfg, s, u, job)
    ensures Covered(s, u, PlanOf(cfg, s, u, job))
  {
    match job
    case Ingest(c, version, at, lead, graph) =>
      var prior, action := Prior(s, u), Classify(Prior(s, u), c, version);
      var chunks := VectorChunks(cfg, u, c, action, graph != ExtractFailed);
      BucketedSame(u, chunks, lead);
      var row := NewRow(cfg, u, prior, c, version, action, graph);
      var stale := (if prior.Some? then prior.value.ids else {}) - row.ids;
      assert chunks == [] ==> stale == {} && Drops(u, stale) == [];
    case Reindex(_, _, _) =>
    case Remove => assert Drops(u, s.rows[u].ids) == [];
    case Enrich(_, _, _) =>
    case DropMissing =>
  }

  /** What one step does to the covering of a resource. */
  lemma StepCovers(cfg: Cfg, steps: seq<Step>, u: Uri)
    requires steps != []
    requires var sys := Final(cfg, steps[..|steps| - 1]);
      && Own(sys) && Enabled(cfg, sys, steps[|steps| - 1])
      && (u in sys.exposed ==> Unsettled(cfg, steps[..|steps| - 1], u))
      && (u in sys.tasks ==> Unsettled(cfg, steps[..|steps| - 1], u) || Covered(sys.store, u, sys.tasks[u]))
    ensures var next := Final(cfg, steps);
      && (u in next.exposed ==> Unsettled(cfg, steps, u))
      && (u in next.tasks ==> Unsettled(cfg, steps, u) || Covered(next.store, u, next.tasks[u]))
  {
    var n := |steps| - 1;
    var sys, step := Final(cfg, steps[..n]), steps[n];
    if BeginsUnmarked(cfg, steps, n, u) {
      assert UnsettledFrom(cfg, steps, n, u);
    } else if Settles(cfg, steps, n, u) {
      assert OwnTask(u, sys.tasks[u]);
      assert |sys.tasks[u]| == 1;
    } else {
      if Unsettled(cfg, steps[..n], u) {
        UnsettledStays(cfg, steps, u);
      } else {
        UncoveredStep(cfg, sys, step, u);
      }
    }
  }

  lemma UncoveredStep(cfg: Cfg, sys: Sys, step: Step, u: Uri)
    requires Own(sys) && Enabled(cfg, sys, step)
    requires u !in sys.exposed && (u in sys.tasks ==> Covered(sys.store, u, sys.tasks[u]))
    requires !(step.Begin? && step.uri == u && Unmarked(cfg, sys.store, u, step.job))
    requires !(step == Advance(u) && sys.tasks[u] != [] && (sys.tasks[u][0].Record? || sys.tasks[u][0].Forget?))
    ensures var next := After(cfg, sys, step);
      u !in next.exposed && (u in next.tasks ==> Covered(next.store, u, next.tasks[u]))
  {
    match step
    case Begin(v, job) =>
      if v == u {
        PlanIsCovered(cfg, sys.store, u, job);
      }
    case Advance(v) =>
      var todo := sys.tasks[v];
      assert OwnTask(v, todo);
      if todo != [] {
        assert Target(todo[0]) == v;
        assert forall j :: 0 <= j < |todo| - 1 ==> todo[1..][j] == todo[j + 1];
      }
    case Abort(_) =>
    case LateEnrich(_, _, _, _, _) =>
  }

  lemma {:induction false} ExposedIsUnsettled(cfg: Cfg, steps: seq<Step>, u: Uri)
    requires ValidRun(cfg, steps)
    ensures var sys := Final(cfg, steps);
      && (u in sys.exposed ==> Unsettled(cfg, steps, u))
      && (u in sys.tasks ==> Unsettled(cfg, steps, u) || Covered(sys.store, u, sys.tasks[u]))
  {
    if steps != [] {
      RunIsOwn(cfg, steps[..|steps| - 1]);
      ExposedIsUnsettled(cfg, steps[..|steps| - 1], u);
      StepCovers(cfg, steps, u);
    }
  }

  /** In every reachable state each row marked indexed has every id it claims in the index, with as
      much of the row's stamp as the level asks for, unless an operation with unmarked deletes was
      begun on the resource and has not got to its row. */
  lemma ClaimsAreBacked(cfg: Cfg, steps: seq<Step>, level: Level, u: Uri)
    requires ValidRun(cfg, steps) && SafeRun(cfg, steps, level) && !Unsettled(cfg, steps, u)
    requires var s := Final(cfg, steps).store; u in s.rows && s.rows[u].status == Indexed
    ensures var s := Final(cfg, steps).store; IdsBacked(s, s.rows[u], level)
  {
    RunKeepsInv(cfg, steps, level);
    ExposedIsUnsettled(cfg, steps, u);
    var sys := Final(cfg, steps);
    assert RowOk(cfg, sys, u, level);
    BackedMeansIdsBacked(cfg, sys.store, u, sys.store.rows[u], level);
  }

  // ------------------------------------------------------------ extending a run

  /** Going on from `steps` to `more` is safe at every level. */
  predicate SafeIf(cfg: Cfg, steps: seq<Step>, more: seq<Step>) {
    forall level :: SafeRun(cfg, steps, level) ==> SafeRun(cfg, more, level)
  }

  lemma AdvanceOnce(cfg: Cfg, steps: seq<Step>, u: Uri)
    requires ValidRun(cfg, steps) && u in Final(cfg, steps).tasks && Final(cfg, steps).tasks[u] != []
    ensures var before, more := Final(cfg, steps), steps + [Advance(u)];
      var todo := before.tasks[u];
      && ValidRun(cfg, more) && SafeIf(cfg, steps, more)
      && Final(cfg, more).store == Apply(before.store, todo[0])
      && Final(cfg, more).tasks == before.tasks[u := todo[1..]]
  {
    OneStepMore(cfg, steps, Advance(u));
  }

  lemma ApplyNext(s: Store, todo: seq<Write>, n: nat)
    requires n < |todo|
    ensures ApplyAll(s, todo[..n + 1]) == Apply(ApplyAll(s, todo[..n]), todo[n])
    ensures todo[n..][0] == todo[n] && todo[n..][1..] == todo[n + 1..]
  {
    assert todo[..n + 1] == todo[..n] + [todo[n]];
    ApplyAllConcat(s, todo[..n], [todo[n]]);
    ApplyOne(ApplyAll(s, todo[..n]), todo[n]);
  }

  /** The run `more` is `steps` with the next `n` writes of the task of `u` made. */
  predicate Advanced(cfg: Cfg, steps: seq<Step>, u: Uri, n: nat, more: seq<Step>)
    requires u in Final(cfg, steps).tasks && n <= |Final(cfg, steps).tasks[u]|
  {
    var before, after := Final(cfg, steps), Final(cfg, more);
    && ValidRun(cfg, more) && SafeIf(cfg, steps, more)
    && after.store == ApplyAll(before.store, before.tasks[u][..n])
    && after.tasks == before.tasks[u := before.tasks[u][n..]]
  }

  lemma AdvancedMore(cfg: Cfg, steps: seq<Step>, u: Uri, n: nat, most: seq<Step>)
    requires u in Final(cfg, steps).tasks && n < |Final(cfg, steps).tasks[u]| && Advanced(cfg, steps, u, n, most)
    ensures Advanced(cfg, steps, u, n + 1, most + [Advance(u)])
  {
    ApplyNext(Final(cfg, steps).store, Final(cfg, steps).tasks[u], n);
    AdvanceOnce(cfg, most, u);
  }

  lemma AdvancedNone(cfg: Cfg, steps: seq<Step>, u: Uri)
    requires ValidRun(cfg, steps) && u in Final(cfg, steps).tasks
    ensures Advanced(cfg, steps, u, 0, steps)
  {
    var todo := Final(cfg, steps).tasks[u];
    assert todo[..0] == [] && todo[0..] == todo;
  }

  lemma {:induction false} AdvanceMany(cfg: Cfg, steps: seq<Step>, u: Uri, n: nat) returns (more: seq<Step>)
    requires ValidRun(cfg, steps) && u in Final(cfg, steps).tasks && n <= |Final(cfg, steps).tasks[u]|
    ensures Advanced(cfg, steps, u, n, more) && steps <= more
  {
    if n == 0 {
      AdvancedNone(cfg, steps, u);
      more := steps;
    } else {
      var most := AdvanceMany(cfg, steps, u, n - 1);
      AdvancedMore(cfg, steps, u, n - 1, most);
      more := most + [Advance(u)];
    }
  }

  lemma BeginOnce(cfg: Cfg, steps: seq<Step>, u: Uri, job: Job)
    requires ValidRun(cfg, steps) && Enabled(cfg, Final(cfg, steps), Begin(u, job))
    ensures var before, more := Final(cfg, steps), steps + [Begin(u, job)];
      && ValidRun(cfg, more)
      && Final(cfg, more).store == before.store
      && Final(cfg, more).tasks == before.tasks[u := PlanOf(cfg, before.store, u, job)]
      && forall level :: StepSafe(cfg, before, Begin(u, job), level) && SafeRun(cfg, steps, level) ==> SafeRun(cfg, more, level)
  {
    OneStepMore(cfg, steps, Begin(u, job));
  }

  lemma AbortOnce(cfg: Cfg, steps: seq<Step>, u: Uri)
    requires ValidRun(cfg, steps) && u in Final(cfg, steps).tasks
    ensures var before, more := Final(cfg, steps), steps + [Abort(u)];
      && ValidRun(cfg, more) && SafeIf(cfg, steps, more)
      && Final(cfg, more).store == before.store
      && Final(cfg, more).tasks == before.tasks - {u}
  {
    OneStepMore(cfg, steps, Abort(u));
  }

  /** `u` begins `job` and makes `n` writes, then crashes or is through. */
  lemma RunCutJob(cfg: Cfg, steps: seq<Step>, u: Uri, job: Job, n: nat) returns (more: seq<Step>)
    requires ValidRun(cfg, steps) && Enabled(cfg, Final(cfg, steps), Begin(u, job))
    requires n <= |PlanOf(cfg, Final(cfg, steps).store, u, job)|
    ensures var before := Final(cfg, steps);
      && ValidRun(cfg, more) && steps <= more
      && Final(cfg, more).store == ApplyAll(before.store, PlanOf(cfg, before.store, u, job)[..n])
      && Final(cfg, more).tasks == before.tasks
      && forall level :: StepSafe(cfg, before, Begin(u, job), level) && SafeRun(cfg, steps, level) ==> SafeRun(cfg, more, level)
  {
    var begun := steps + [Begin(u, job)];
    BeginOnce(cfg, steps, u, job);
    var most := AdvanceMany(cfg, begun, u, n);
    AbortOnce(cfg, most, u);
    PutAndTake(Final(cfg, steps).tasks, u, PlanOf(cfg, Final(cfg, steps).store, u, job), n);
    more := most + [Abort(u)];
  }

  lemma PutAndTake(tasks: map<Uri, seq<Write>>, u: Uri, todo: seq<Write>, n: nat)
    requires u !in tasks && n <= |todo|
    ensures tasks[u := todo][u := todo[n..]] - {u} == tasks
  {
  }
}
