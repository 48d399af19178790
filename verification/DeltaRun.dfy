/** A failure-free delta run against a run from empty stores, for every interleaving of the
    concurrent batches and from any stores: exactly when the two agree. */
module DeltaRun {
  import opened Stores
  import opened Lists
  import opened Plans
  import opened Claims
  import opened ClaimLimits
  import opened Runs

  /** One pass over one source key: `source` is what `list_resources` and `read_resource` yield. */
  datatype Pass = Pass(owner: string, source: map<Uri, Content>, version: nat, at: Uri -> nat, lead: Uri -> Collection)

  predicate ValidPass(cfg: Cfg, pass: Pass) {
    !cfg.daemon(pass.owner) && forall u :: u in pass.source ==> u.owner == pass.owner
  }

  /** The manifest row that survives the reconciliation at the start of the run. */
  function Survivor(s: Store, u: Uri): Option<Row> {
    if u in s.rows && !Missing(s, s.rows[u]) then Some(s.rows[u]) else None
  }

  /** All writes the run makes for one resource of its source key. */
  function PassWrites(cfg: Cfg, s: Store, pass: Pass, u: Uri): seq<Write> {
    var prior := Survivor(s, u);
    (if u in s.rows && prior == None then [Forget(u)] else [])
    + if u in pass.source then
        var c := pass.source[u];
        if Classify(prior, c, pass.version) == Skip then []
        else IngestPlan(cfg, prior, u, c, pass.version, pass.at(u), pass.lead(u), Written)
      else if prior.Some? then RemovalPlan(u, prior.value)
      else []
  }

  function About(u: Uri): Write -> bool {
    (w: Write) => Target(w) == u
  }

  /** The writes of a sequence that concern one resource, in order. */
  function For(ws: seq<Write>, u: Uri): seq<Write> {
    Pick(ws, About(u))
  }

  /** `ws` is some interleaving of everything the run does, without failures. */
  ghost predicate IsDelta(cfg: Cfg, s: Store, pass: Pass, ws: seq<Write>) {
    forall u :: For(ws, u) == if u.owner == pass.owner then PassWrites(cfg, s, pass, u) else []
  }

  /** What a run that was cut short, wherever, or left resources out may have done. */
  ghost predicate IsCutDelta(cfg: Cfg, s: Store, pass: Pass, ws: seq<Write>) {
    forall u :: For(ws, u) <= if u.owner == pass.owner then PassWrites(cfg, s, pass, u) else []
  }

  /** A run, cut short or not, in which all that is due for `u` was done. */
  ghost predicate DoneFor(cfg: Cfg, s: Store, pass: Pass, ws: seq<Write>, u: Uri) {
    IsCutDelta(cfg, s, pass, ws) && u.owner == pass.owner && For(ws, u) == PassWrites(cfg, s, pass, u)
  }

  // ------------------------------------------------------------ locality

  /** Two stores look alike to one resource. */
  ghost predicate SameAt(u: Uri, a: Store, b: Store) {
    && (u in a.rows <==> u in b.rows)
    && (u in a.rows ==> a.rows[u] == b.rows[u])
    && (forall key: Key :: key.id.uri == u ==> (key in a.points <==> key in b.points))
    && (forall key: Key :: key.id.uri == u && key in a.points ==> a.points[key] == b.points[key])
  }

  lemma ApplyLast(s: Store, ws: seq<Write>)
    requires ws != []
    ensures ApplyAll(s, ws) == Apply(ApplyAll(s, ws[..|ws| - 1]), ws[|ws| - 1])
  {
    ApplyNext(s, ws, |ws| - 1);
    assert ws[..|ws|] == ws;
  }

  lemma SameAtNext(u: Uri, a: Store, b: Store, w: Write)
    requires SameAt(u, a, b) && Local(w)
    ensures if Target(w) == u then SameAt(u, Apply(a, w), Apply(b, w)) else SameAt(u, Apply(a, w), b)
  {
  }

  /** What a resource looks like after a run depends only on that resource's writes. */
  lemma {:induction false} Projection(a: Store, b: Store, ws: seq<Write>, u: Uri)
    requires SameAt(u, a, b) && forall w :: w in ws ==> Local(w)
    ensures SameAt(u, ApplyAll(a, ws), ApplyAll(b, For(ws, u)))
  {
    if ws != [] {
      var rest, w := ws[..|ws| - 1], ws[|ws| - 1];
      Projection(a, b, rest, u);
      ApplyLast(a, ws);
      SameAtNext(u, ApplyAll(a, rest), ApplyAll(b, For(rest, u)), w);
      if Target(w) == u {
        ApplyLast(b, For(ws, u));
      }
    }
  }

  lemma PassWritesLocal(cfg: Cfg, s: Store, pass: Pass, u: Uri, w: Write)
    requires OwnRows(s) && w in PassWrites(cfg, s, pass, u)
    ensures Local(w)
  {
    var prior := Survivor(s, u);
    if w != Forget(u) && u in pass.source {
      IngestIsOwn(cfg, prior, u, pass.source[u], pass.version, pass.at(u), pass.lead(u), Written);
      OwnIsLocal(u, IngestPlan(cfg, prior, u, pass.source[u], pass.version, pass.at(u), pass.lead(u), Written));
    }
  }

  lemma CutDeltaIsLocal(cfg: Cfg, s: Store, pass: Pass, ws: seq<Write>)
    requires IsCutDelta(cfg, s, pass, ws) && OwnRows(s)
    ensures forall w :: w in ws ==> Local(w) && Target(w).owner == pass.owner
  {
    forall w | w in ws
      ensures Local(w) && Target(w).owner == pass.owner
    {
      PickMembers(ws, About(Target(w)), w);
      assert w in For(ws, Target(w));
      PassWritesLocal(cfg, s, pass, Target(w), w);
    }
  }

  lemma DeltaIsLocal(cfg: Cfg, s: Store, pass: Pass, ws: seq<Write>)
    requires IsDelta(cfg, s, pass, ws) && OwnRows(s)
    ensures forall w :: w in ws ==> Local(w)
  {
    CutDeltaIsLocal(cfg, s, pass, ws);
  }

  // ------------------------------------------------------------ one resource

  function FullRow(cfg: Cfg, pass: Pass, u: Uri): Row
    requires u in pass.source
  {
    Row(Stamp(Sha(pass.source[u]), pass.version), Ids(u, Wanted(cfg, u, pass.source[u])), Indexed, true)
  }

  /** Every one of the chunks has its point, with the stamp. */
  predicate AllStamped(s: Store, u: Uri, chunks: seq<Chunk>, stamp: Stamp) {
    forall key :: key in Keys(u, chunks) ==> Stamped(s, key, stamp, Full)
  }

  /** The resource ends as a full run would leave it. */
  predicate EndsFull(cfg: Cfg, pass: Pass, u: Uri, t: Store) {
    if u !in pass.source then u !in t.rows
    else
      && u in t.rows && t.rows[u] == FullRow(cfg, pass, u)
      && AllStamped(t, u, Wanted(cfg, u, pass.source[u]), FullRow(cfg, pass, u).stamp)
  }

  /** What a graph refresh finds must already be right: all but the community summary is stamped,
      and, where there is none to put, the row claims everything. */
  predicate RefreshOk(cfg: Cfg, s: Store, u: Uri, c: Content, version: nat, prior: Row) {
    && AllStamped(s, u, RawChunks(cfg, u, c) + SummaryChunks(cfg, u, c), Stamp(Sha(c), version))
    && (CommunityChunks(cfg, u, c) == [] ==> prior.ids == Ids(u, Wanted(cfg, u, c)))
  }

  /** What a skipped resource must already be: indexed, claiming everything, with every point stamped. */
  predicate SkipOk(cfg: Cfg, s: Store, u: Uri, c: Content, version: nat, prior: Row) {
    && prior.status == Indexed
    && prior.ids == Ids(u, Wanted(cfg, u, c))
    && AllStamped(s, u, Wanted(cfg, u, c), Stamp(Sha(c), version))
  }

  /** What the stores must hold of a resource before a delta run for it to end like a full run. */
  predicate ResourceOk(cfg: Cfg, s: Store, pass: Pass, u: Uri)
    requires u in pass.source
  {
    var prior, c := Survivor(s, u), pass.source[u];
    match Classify(prior, c, pass.version)
    case Skip => SkipOk(cfg, s, u, c, pass.version, prior.value)
    case Refresh => RefreshOk(cfg, s, u, c, pass.version, prior.value)
    case _ => true
  }

  /** Raw chunks and the two summaries have different keys. */
  lemma SummariesApart(cfg: Cfg, u: Uri, c: Content)
    requires !cfg.daemon(u.owner)
    ensures Keys(u, Wanted(cfg, u, c)) == Keys(u, RawChunks(cfg, u, c) + SummaryChunks(cfg, u, c)) + Keys(u, CommunityChunks(cfg, u, c))
    ensures Keys(u, RawChunks(cfg, u, c) + SummaryChunks(cfg, u, c)) !! Keys(u, CommunityChunks(cfg, u, c))
  {
    WantedIsIngest(cfg, u, c);
    var base, community := RawChunks(cfg, u, c) + SummaryChunks(cfg, u, c), CommunityChunks(cfg, u, c);
    assert forall ch :: ch in Wanted(cfg, u, c) <==> ch in base || ch in community;
    forall key | key in Keys(u, base)
      ensures key !in Keys(u, community)
    {
      var ch :| ch in base && KeyOf(u, ch) == key;
      assert ch in RawChunks(cfg, u, c) || ch in SummaryChunks(cfg, u, c);
    }
  }

  /** What the row and the put chunks of an ingest come to, against all that is wanted. */
  lemma NewRowIsFullIff(cfg: Cfg, pass: Pass, u: Uri, prior: Option<Row>)
    requires ValidPass(cfg, pass) && u in pass.source
    ensures var c, action := pass.source[u], Classify(prior, pass.source[u], pass.version);
      var row := NewRow(cfg, u, prior, c, pass.version, action, Written);
      && row.stamp == FullRow(cfg, pass, u).stamp
      && (action in {Added, Updated} ==> row == FullRow(cfg, pass, u) && VectorChunks(cfg, u, c, action, true) == Wanted(cfg, u, c))
      && (action == Refresh ==>
            (row == FullRow(cfg, pass, u) <==> (CommunityChunks(cfg, u, c) == [] ==> prior.value.ids == Ids(u, Wanted(cfg, u, c)))))
  {
    WantedIsIngest(cfg, u, pass.source[u]);
  }

  lemma PlanEffect(cfg: Cfg, s: Store, pass: Pass, u: Uri, prior: Option<Row>)
    requires u in pass.source && (prior.Some? ==> OwnIds(u, prior.value))
    ensures var c, action := pass.source[u], Classify(prior, pass.source[u], pass.version);
      var row := NewRow(cfg, u, prior, c, pass.version, action, Written);
      var t := ApplyAll(s, IngestPlan(cfg, prior, u, c, pass.version, pass.at(u), pass.lead(u), Written));
      && u in t.rows && t.rows[u] == row
      && forall key: Key :: key.id in row.ids ==>
           (Stamped(t, key, row.stamp, Full) <==>
            key in Keys(u, VectorChunks(cfg, u, c, action, true)) || Stamped(s, key, row.stamp, Full))
  {
    var c, action := pass.source[u], Classify(prior, pass.source[u], pass.version);
    var chunks := VectorChunks(cfg, u, c, action, true);
    var vector := Bucketed(chunks, pass.lead(u));
    var row := NewRow(cfg, u, prior, c, pass.version, action, Written);
    var stale := (if prior.Some? then prior.value.ids else {}) - row.ids;
    BucketedSame(u, chunks, pass.lead(u));
    var plan := IngestPlan(cfg, prior, u, c, pass.version, pass.at(u), pass.lead(u), Written);
    assert plan == Shaped(u, vector != [], vector, pass.at(u), Drops(u, stale), row);
    ShapedEffect(s, u, vector != [], vector, pass.at(u), Drops(u, stale), row);
    forall key: Key | key.id in row.ids
      ensures !Dropped(Drops(u, stale), key)
    {
      DroppedByDrops(u, stale, key);
    }
  }

  lemma WantedIds(cfg: Cfg, u: Uri, c: Content)
    ensures forall key :: key in Keys(u, Wanted(cfg, u, c)) ==> key.id in Ids(u, Wanted(cfg, u, c))
  {
  }

  /** One resource's ingest ends like a full run's exactly when what a refresh finds is right; any
      other ingest always does, whatever the prior row. */
  lemma IngestEndsFullIff(cfg: Cfg, s: Store, pass: Pass, u: Uri, prior: Option<Row>)
    requires ValidPass(cfg, pass) && u in pass.source && (prior.Some? ==> OwnIds(u, prior.value))
    ensures var c := pass.source[u];
      EndsFull(cfg, pass, u, ApplyAll(s, IngestPlan(cfg, prior, u, c, pass.version, pass.at(u), pass.lead(u), Written)))
      <==> (Classify(prior, c, pass.version) == Refresh ==> RefreshOk(cfg, s, u, c, pass.version, prior.value))
  {
    var c := pass.source[u];
    NewRowIsFullIff(cfg, pass, u, prior);
    PlanEffect(cfg, s, pass, u, prior);
    SummariesApart(cfg, u, c);
    WantedIds(cfg, u, c);
  }

  lemma RemovalEnds(s: Store, u: Uri, row: Row)
    ensures u !in ApplyAll(s, RemovalPlan(u, row)).rows
  {
    ApplyAllConcat(s, Drops(u, row.ids), [Forget(u)]);
    ApplyOne(ApplyAll(s, Drops(u, row.ids)), Forget(u));
  }

  lemma ResourceEndsFullIff(cfg: Cfg, s: Store, pass: Pass, u: Uri)
    requires ValidPass(cfg, pass) && u.owner == pass.owner && OwnRows(s)
    ensures EndsFull(cfg, pass, u, ApplyAll(s, PassWrites(cfg, s, pass, u))) <==> (u in pass.source ==> ResourceOk(cfg, s, pass, u))
  {
    var prior := Survivor(s, u);
    var start := if u in s.rows && prior == None then [Forget(u)] else [];
    var s1 := ApplyAll(s, start);
    if start != [] {
      ApplyOne(s, Forget(u));
    }
    var writes := PassWrites(cfg, s, pass, u);
    ApplyAllConcat(s, start, writes[|start|..]);
    assert writes == start + writes[|start|..];
    if u !in pass.source {
      if prior.Some? {
        RemovalEnds(s1, u, prior.value);
      }
    } else if Classify(prior, pass.source[u], pass.version) != Skip {
      IngestEndsFullIff(cfg, s1, pass, u, prior);
    }
  }

  // ------------------------------------------------------------ delta equals full

  /** `t` and a run from empty stores `full` agree on everything the source key claims, and what
      else the index holds for it is claimed by nobody. */
  ghost predicate AgreesWithFull(cfg: Cfg, owner: string, t: Store, full: Store) {
    && (forall u: Uri :: u.owner == owner ==> (u in t.rows <==> u in full.rows))
    && (forall u: Uri :: u.owner == owner && u in t.rows ==> t.rows[u] == full.rows[u])
    && (forall key: Key :: key.id.uri.owner == owner && key in full.points ==>
          Stamped(t, key, full.points[key].stamp, Full))
    && (forall key: Key :: key.id.uri.owner == owner && key in t.points && key !in full.points ==>
          forall u :: u in t.rows ==> key !in ClaimKeys(cfg, u, t.rows[u]))
  }

  lemma PassEndsFullIff(cfg: Cfg, s: Store, pass: Pass, ws: seq<Write>, u: Uri)
    requires ValidPass(cfg, pass) && OwnRows(s) && IsDelta(cfg, s, pass, ws) && u.owner == pass.owner
    ensures EndsFull(cfg, pass, u, ApplyAll(s, ws)) <==> (u in pass.source ==> ResourceOk(cfg, s, pass, u))
  {
    DeltaIsLocal(cfg, s, pass, ws);
    Projection(s, s, ws, u);
    ResourceEndsFullIff(cfg, s, pass, u);
    SameEnd(cfg, pass, u, ApplyAll(s, ws), ApplyAll(s, For(ws, u)));
  }

  lemma SameEnd(cfg: Cfg, pass: Pass, u: Uri, a: Store, b: Store)
    requires SameAt(u, a, b)
    ensures EndsFull(cfg, pass, u, a) <==> EndsFull(cfg, pass, u, b)
  {
    assert forall key: Key, stamp :: key.id.uri == u ==> (Stamped(a, key, stamp, Full) <==> Stamped(b, key, stamp, Full));
  }

  /** A run from empty stores ends full, with no other point of its source key. */
  lemma RebuildIsFull(cfg: Cfg, pass: Pass, ws: seq<Write>, u: Uri)
    requires ValidPass(cfg, pass) && IsDelta(cfg, EMPTY, pass, ws) && u.owner == pass.owner
    ensures var full := ApplyAll(EMPTY, ws);
      && EndsFull(cfg, pass, u, full)
      && forall key: Key :: key.id.uri == u && key in full.points ==>
           u in pass.source && key in Keys(u, Wanted(cfg, u, pass.source[u]))
  {
    PassEndsFullIff(cfg, EMPTY, pass, ws, u);
    DeltaIsLocal(cfg, EMPTY, pass, ws);
    Projection(EMPTY, EMPTY, ws, u);
    if u in pass.source {
      assert For(ws, u) == IngestPlan(cfg, None, u, pass.source[u], pass.version, pass.at(u), pass.lead(u), Written);
      FirstPlanPoints(cfg, u, pass.source[u], pass.version, pass.at(u), pass.lead(u), Written);
    }
  }

  /** The points a first ingest makes from nothing. */
  lemma FirstPlanPoints(cfg: Cfg, u: Uri, c: Content, version: nat, at: nat, lead: Collection, graph: GraphOutcome)
    ensures var chunks := IngestChunks(cfg, u, c, graph != ExtractFailed);
      var t := ApplyAll(EMPTY, IngestPlan(cfg, None, u, c, version, at, lead, graph));
      && t.rows == map[u := NewRow(cfg, u, None, c, version, Added, graph)]
      && t.points.Keys == Keys(u, chunks)
      && AllStamped(t, u, chunks, Stamp(Sha(c), version))
  {
    var chunks := IngestChunks(cfg, u, c, graph != ExtractFailed);
    var vector := Bucketed(chunks, lead);
    var row := NewRow(cfg, u, None, c, version, Added, graph);
    BucketedSame(u, chunks, lead);
    assert {} - row.ids == {};
    var plan := IngestPlan(cfg, None, u, c, version, at, lead, graph);
    assert plan == Shaped(u, vector != [], vector, at, [], row);
    ShapedEffect(EMPTY, u, vector != [], vector, at, [], row);
  }

  lemma FullClaims(cfg: Cfg, pass: Pass, u: Uri)
    requires u in pass.source
    ensures ClaimKeys(cfg, u, FullRow(cfg, pass, u)) == Keys(u, Wanted(cfg, u, pass.source[u]))
  {
  }

  lemma AgreementFromResources(cfg: Cfg, pass: Pass, t: Store, full: Store)
    requires ValidPass(cfg, pass)
    requires forall u: Uri :: u.owner == pass.owner ==> EndsFull(cfg, pass, u, t) && EndsFull(cfg, pass, u, full)
    requires forall key: Key :: key.id.uri.owner == pass.owner && key in full.points ==>
      key.id.uri in pass.source && key in Keys(key.id.uri, Wanted(cfg, key.id.uri, pass.source[key.id.uri]))
    ensures AgreesWithFull(cfg, pass.owner, t, full)
  {
    forall key: Key | key.id.uri.owner == pass.owner && key in full.points
      ensures Stamped(t, key, full.points[key].stamp, Full)
    {
      var u := key.id.uri;
      assert EndsFull(cfg, pass, u, t) && EndsFull(cfg, pass, u, full);
      assert Stamped(full, key, FullRow(cfg, pass, u).stamp, Full);
      assert Stamped(t, key, FullRow(cfg, pass, u).stamp, Full);
    }
    forall key: Key, u | key.id.uri.owner == pass.owner && u in t.rows && key in ClaimKeys(cfg, u, t.rows[u])
      ensures key in full.points
    {
      assert key.id.uri == u && EndsFull(cfg, pass, u, t) && EndsFull(cfg, pass, u, full);
      FullClaims(cfg, pass, u);
      assert Stamped(full, key, FullRow(cfg, pass, u).stamp, Full);
    }
  }

  lemma ResourceFromAgreement(cfg: Cfg, pass: Pass, t: Store, full: Store, u: Uri)
    requires u.owner == pass.owner && EndsFull(cfg, pass, u, full) && AgreesWithFull(cfg, pass.owner, t, full)
    ensures EndsFull(cfg, pass, u, t)
  {
    if u in pass.source {
      var stamp := FullRow(cfg, pass, u).stamp;
      forall key | key in Keys(u, Wanted(cfg, u, pass.source[u]))
        ensures Stamped(t, key, stamp, Full)
      {
        assert Stamped(full, key, stamp, Full) && key.id.uri == u;
      }
    }
  }

  /** From any stores whose rows claim their own ids, a failure-free delta run ends, under every
      interleaving, with the rows and the claimed points of a run from empty stores if and only if
      every resource that it skips or refreshes is as it should be; new and changed ones need nothing. */
  lemma DeltaEqualsFullIff(cfg: Cfg, s: Store, pass: Pass, ws: seq<Write>, rebuild: seq<Write>)
    requires ValidPass(cfg, pass) && OwnRows(s) && IsDelta(cfg, s, pass, ws) && IsDelta(cfg, EMPTY, pass, rebuild)
    ensures AgreesWithFull(cfg, pass.owner, ApplyAll(s, ws), ApplyAll(EMPTY, rebuild)) <==>
      forall u :: u in pass.source ==> ResourceOk(cfg, s, pass, u)
  {
    var t, full := ApplyAll(s, ws), ApplyAll(EMPTY, rebuild);
    forall u: Uri | u.owner == pass.owner
      ensures EndsFull(cfg, pass, u, t) <==> (u in pass.source ==> ResourceOk(cfg, s, pass, u))
      ensures EndsFull(cfg, pass, u, full)
      ensures forall key: Key :: key.id.uri == u && key in full.points ==>
        u in pass.source && key in Keys(u, Wanted(cfg, u, pass.source[u]))
    {
      PassEndsFullIff(cfg, s, pass, ws, u);
      RebuildIsFull(cfg, pass, rebuild, u);
    }
    if forall u :: u in pass.source ==> ResourceOk(cfg, s, pass, u) {
      AgreementFromResources(cfg, pass, t, full);
    } else {
      var u :| u in pass.source && !ResourceOk(cfg, s, pass, u);
      if AgreesWithFull(cfg, pass.owner, t, full) {
        ResourceFromAgreement(cfg, pass, t, full, u);
        assert false;
      }
    }
  }

  /** A delta run leaves other source keys alone. */
  lemma OthersStay(cfg: Cfg, s: Store, pass: Pass, ws: seq<Write>, u: Uri)
    requires OwnRows(s) && IsDelta(cfg, s, pass, ws) && u.owner != pass.owner
    ensures SameAt(u, ApplyAll(s, ws), s)
  {
    DeltaIsLocal(cfg, s, pass, ws);
    Projection(s, s, ws, u);
    assert For(ws, u) == [];
  }

  // ------------------------------------------------------------ after a run

  /** The same after any run at all: crashes, late enrichment and unsafe refreshes included. */
  lemma AnyRunDeltaEqualsFullIff(cfg: Cfg, steps: seq<Step>, pass: Pass, ws: seq<Write>, rebuild: seq<Write>)
    requires ValidRun(cfg, steps) && ValidPass(cfg, pass)
    requires IsDelta(cfg, Final(cfg, steps).store, pass, ws) && IsDelta(cfg, EMPTY, pass, rebuild)
    ensures var s := Final(cfg, steps).store;
      AgreesWithFull(cfg, pass.owner, ApplyAll(s, ws), ApplyAll(EMPTY, rebuild)) <==>
      forall u :: u in pass.source ==> ResourceOk(cfg, s, pass, u)
  {
    RunIsOwn(cfg, steps);
    DeltaEqualsFullIff(cfg, Final(cfg, steps).store, pass, ws, rebuild);
  }

  /** The row the unchanged test matches is a finished one: indexed, no unmarked deletes on their
      way, and, when a graph refresh is due, already claiming the structural summary. */
  ghost predicate Finished(cfg: Cfg, steps: seq<Step>, u: Uri, c: Content, version: nat) {
    var prior := Survivor(Final(cfg, steps).store, u);
    Classify(prior, c, version) in {Skip, Refresh} ==>
      && prior.value.status == Indexed && !Unsettled(cfg, steps, u)
      && (Classify(prior, c, version) == Refresh ==>
            Ids(u, RawChunks(cfg, u, c) + SummaryChunks(cfg, u, c)) <= prior.value.ids)
  }

  lemma BackedStamps(cfg: Cfg, s: Store, u: Uri, row: Row, c: Content, chunks: seq<Chunk>)
    requires Backed(cfg, s, u, row, Full) && row.stamp.hash == Sha(c)
    requires Ids(u, chunks) <= row.ids && forall ch :: ch in chunks ==> ch in Wanted(cfg, u, c)
    ensures AllStamped(s, u, chunks, row.stamp)
  {
    forall key | key in Keys(u, chunks)
      ensures key in ClaimKeys(cfg, u, row)
    {
      var ch :| ch in chunks && KeyOf(u, ch) == key;
      assert key.id in Ids(u, chunks);
    }
  }

  lemma FinishedIsOk(cfg: Cfg, steps: seq<Step>, pass: Pass, u: Uri)
    requires ValidRun(cfg, steps) && SafeRun(cfg, steps, Full) && ValidPass(cfg, pass) && u in pass.source
    requires Finished(cfg, steps, u, pass.source[u], pass.version)
    ensures ResourceOk(cfg, Final(cfg, steps).store, pass, u)
  {
    var sys, c := Final(cfg, steps), pass.source[u];
    var prior := Survivor(sys.store, u);
    if Classify(prior, c, pass.version) in {Skip, Refresh} {
      RunKeepsInv(cfg, steps, Full);
      ExposedIsUnsettled(cfg, steps, u);
      assert RowOk(cfg, sys, u, Full);
      WantedIsIngest(cfg, u, c);
      if Classify(prior, c, pass.version) == Skip {
        BackedStamps(cfg, sys.store, u, prior.value, c, Wanted(cfg, u, c));
      } else {
        BackedStamps(cfg, sys.store, u, prior.value, c, RawChunks(cfg, u, c) + SummaryChunks(cfg, u, c));
        if CommunityChunks(cfg, u, c) == [] {
          assert Wanted(cfg, u, c) == RawChunks(cfg, u, c) + SummaryChunks(cfg, u, c);
        }
      }
    }
  }

  /** From every crash-reachable state in which the rows matched by the unchanged test are finished,
      a failure-free delta run equals a full run; other source keys keep everything. */
  lemma DeltaEqualsFull(cfg: Cfg, steps: seq<Step>, pass: Pass, ws: seq<Write>, rebuild: seq<Write>)
    requires ValidRun(cfg, steps) && SafeRun(cfg, steps, Full) && ValidPass(cfg, pass)
    requires IsDelta(cfg, Final(cfg, steps).store, pass, ws) && IsDelta(cfg, EMPTY, pass, rebuild)
    requires forall u :: u in pass.source ==> Finished(cfg, steps, u, pass.source[u], pass.version)
    ensures var s := Final(cfg, steps).store;
      && AgreesWithFull(cfg, pass.owner, ApplyAll(s, ws), ApplyAll(EMPTY, rebuild))
      && forall u: Uri :: u.owner != pass.owner ==> SameAt(u, ApplyAll(s, ws), s)
  {
    var s := Final(cfg, steps).store;
    AnyRunDeltaEqualsFullIff(cfg, steps, pass, ws, rebuild);
    forall u | u in pass.source
      ensures ResourceOk(cfg, s, pass, u)
    {
      FinishedIsOk(cfg, steps, pass, u);
    }
    RunIsOwn(cfg, steps);
    forall u: Uri | u.owner != pass.owner
      ensures SameAt(u, ApplyAll(s, ws), s)
    {
      OthersStay(cfg, s, pass, ws, u);
    }
  }

  /** Where no unmarked deletes are on their way and every row due for a refresh is finished, all
      that can be wrong is a pending row that records the hash now at the source. */
  lemma OnlyPendingRowsMatter(cfg: Cfg, steps: seq<Step>, pass: Pass, ws: seq<Write>, rebuild: seq<Write>)
    requires ValidRun(cfg, steps) && SafeRun(cfg, steps, Full) && ValidPass(cfg, pass)
    requires IsDelta(cfg, Final(cfg, steps).store, pass, ws) && IsDelta(cfg, EMPTY, pass, rebuild)
    requires forall u :: u in pass.source ==> !Unsettled(cfg, steps, u)
    requires var s := Final(cfg, steps).store;
      forall u :: u in pass.source && Classify(Survivor(s, u), pass.source[u], pass.version) == Refresh ==>
        Finished(cfg, steps, u, pass.source[u], pass.version)
    ensures var s := Final(cfg, steps).store;
      AgreesWithFull(cfg, pass.owner, ApplyAll(s, ws), ApplyAll(EMPTY, rebuild)) <==>
      forall u :: u in pass.source && Classify(Survivor(s, u), pass.source[u], pass.version) == Skip ==>
        s.rows[u].status == Indexed
  {
    var s := Final(cfg, steps).store;
    AnyRunDeltaEqualsFullIff(cfg, steps, pass, ws, rebuild);
    forall u | u in pass.source
      ensures ResourceOk(cfg, s, pass, u) <==>
        (Classify(Survivor(s, u), pass.source[u], pass.version) == Skip ==> s.rows[u].status == Indexed)
    {
      if Classify(Survivor(s, u), pass.source[u], pass.version) == Skip ==> s.rows[u].status == Indexed {
        FinishedIsOk(cfg, steps, pass, u);
      }
    }
  }

  // ------------------------------------------------------------ the failing inputs are reachable

  /** A first ingest from empty stores, to its end. */
  lemma FirstIngest(cfg: Cfg, u: Uri, c: Content, version: nat, lead: Collection, graph: GraphOutcome) returns (steps: seq<Step>)
    requires !cfg.daemon(u.owner)
    ensures ValidRun(cfg, steps) && SafeRun(cfg, steps, Full) && Final(cfg, steps).tasks == map[]
    ensures var s, chunks := Final(cfg, steps).store, IngestChunks(cfg, u, c, graph != ExtractFailed);
      && s.rows == map[u := NewRow(cfg, u, None, c, version, Added, graph)]
      && s.points.Keys == Keys(u, chunks)
      && AllStamped(s, u, chunks, Stamp(Sha(c), version))
  {
    var job := Ingest(c, version, 0, lead, graph);
    var plan := PlanOf(cfg, EMPTY, u, job);
    assert Final(cfg, []) == INIT;
    steps := RunCutJob(cfg, [], u, job, |plan|);
    assert plan[..|plan|] == plan;
    FirstPlanPoints(cfg, u, c, version, 0, lead, graph);
  }

  lemma NothingMissing(s: Store, u: Uri, chunks: seq<Chunk>, row: Row)
    requires row.ids == Ids(u, chunks) && Keys(u, chunks) <= s.points.Keys
    ensures !Missing(s, row)
  {
    forall id | id in row.ids
      ensures Exists(s, id)
    {
      var ch :| ch in chunks && KeyOf(u, ch).id == id;
      assert KeyOf(u, ch) in Keys(u, chunks) && KeyOf(u, ch) == Key(CollectionOf(ch), id);
    }
  }

  /** A resource is indexed, its content changes, the ingest of the change dies once it has put its
      chunks, and the content changes back: the row is pending and skipped, over the other's points. */
  lemma RevertedPendingRowIsReachable(cfg: Cfg, u: Uri, a: Content, b: Content, version: nat, lead: Collection) returns (steps: seq<Step>)
    requires !cfg.daemon(u.owner) && a != b && IngestChunks(cfg, u, b, true) != []
    ensures ValidRun(cfg, steps) && SafeRun(cfg, steps, Full)
    ensures var s := Final(cfg, steps).store;
      && u in s.rows && s.rows[u].status == Pending
      && Classify(Survivor(s, u), a, version) == Skip
      && AllStamped(s, u, IngestChunks(cfg, u, b, true), Stamp(Sha(b), version))
  {
    var first := FirstIngest(cfg, u, a, version, lead, Written);
    var s := Final(cfg, first).store;
    var job := Ingest(b, version, 1, lead, Written);
    NothingMissing(s, u, IngestChunks(cfg, u, a, true), s.rows[u]);
    var n := 1 + |Bucketed(IngestChunks(cfg, u, b, true), lead)|;
    PutsMade(cfg, s, u, s.rows[u], b, version, 1, lead);
    steps := RunCutJob(cfg, first, u, job, n);
    var t := Final(cfg, steps).store;
    NothingMissing(t, u, IngestChunks(cfg, u, a, true), t.rows[u]);
  }

  /** Once an ingest of changed content has put its chunks, the old row is there, pending. */
  lemma PutsMade(cfg: Cfg, s: Store, u: Uri, row: Row, c: Content, version: nat, at: nat, lead: Collection)
    requires u in s.rows && s.rows[u] == row && Classify(Some(row), c, version) == Updated && IngestChunks(cfg, u, c, true) != []
    ensures var chunks := IngestChunks(cfg, u, c, true);
      var plan, n := IngestPlan(cfg, Some(row), u, c, version, at, lead, Written), 1 + |Bucketed(chunks, lead)|;
      n <= |plan|
      && var t := ApplyAll(s, plan[..n]);
      && t.rows == s.rows[u := row.(status := Pending)]
      && s.points.Keys <= t.points.Keys && AllStamped(t, u, chunks, Stamp(Sha(c), version))
  {
    var chunks := IngestChunks(cfg, u, c, true);
    var vector := Bucketed(chunks, lead);
    var puts := Puts(u, vector, Stamp(Sha(c), version), at);
    BucketedSame(u, chunks, lead);
    assert IngestPlan(cfg, Some(row), u, c, version, at, lead, Written)[..1 + |vector|] == [Mark(u)] + puts;
    ApplyAllConcat(s, [Mark(u)], puts);
    ApplyOne(s, Mark(u));
    PutsStamp(Apply(s, Mark(u)), u, chunks, vector, Stamp(Sha(c), version), at);
  }

  lemma PutsStamp(s: Store, u: Uri, chunks: seq<Chunk>, vector: seq<Chunk>, stamp: Stamp, at: nat)
    requires Keys(u, vector) == Keys(u, chunks)
    ensures var t := ApplyAll(s, Puts(u, vector, stamp, at));
      t.rows == s.rows && s.points.Keys <= t.points.Keys && AllStamped(t, u, chunks, stamp)
  {
    PutsEffect(s, u, vector, stamp, at);
    var t := ApplyAll(s, Puts(u, vector, stamp, at));
    forall key | key in Keys(u, chunks)
      ensures Stamped(t, key, stamp, Full)
    {
      assert FromChunk(u, vector, key, stamp, at, t.points[key]);
    }
  }

  /** With the old content back at the source no delta run equals a full run then. */
  lemma RevertedPendingRowIsSkipped(cfg: Cfg, s: Store, pass: Pass, ws: seq<Write>, rebuild: seq<Write>, u: Uri)
    requires ValidPass(cfg, pass) && OwnRows(s) && IsDelta(cfg, s, pass, ws) && IsDelta(cfg, EMPTY, pass, rebuild)
    requires u in pass.source && Classify(Survivor(s, u), pass.source[u], pass.version) == Skip
    requires s.rows[u].status == Pending
    ensures SameAt(u, ApplyAll(s, ws), s)
    ensures !AgreesWithFull(cfg, pass.owner, ApplyAll(s, ws), ApplyAll(EMPTY, rebuild))
  {
    DeltaIsLocal(cfg, s, pass, ws);
    Projection(s, s, ws, u);
    assert For(ws, u) == [];
    DeltaEqualsFullIff(cfg, s, pass, ws, rebuild);
  }

  /** A graph extraction fails, so the summary is neither put nor claimed; the refresh that follows
      puts nothing, marks the row fresh, and from then on the resource is skipped without it, though
      everything it claims is backed. */
  lemma FailedExtractionIsNeverMadeGood(cfg: Cfg, u: Uri, c: Content, version: nat, lead: Collection) returns (steps: seq<Step>)
    requires !cfg.daemon(u.owner) && cfg.summary(u, c) && !cfg.community(u, c)
    ensures ValidRun(cfg, steps)
    ensures var s := Final(cfg, steps).store;
      && u in s.rows && s.rows[u].status == Indexed && IdsBacked(s, s.rows[u], Full)
      && Classify(Survivor(s, u), c, version) == Skip
      && KeyOf(u, Chunk(0, 0, Summary)) in Keys(u, Wanted(cfg, u, c))
      && KeyOf(u, Chunk(0, 0, Summary)).id !in s.rows[u].ids
  {
    var first := FirstIngest(cfg, u, c, version, lead, ExtractFailed);
    var s := Final(cfg, first).store;
    var raw := RawChunks(cfg, u, c);
    assert IngestChunks(cfg, u, c, false) == raw;
    var job := Ingest(c, version, 1, lead, Written);
    NothingMissing(s, u, raw, s.rows[u]);
    var row := NewRow(cfg, u, Some(s.rows[u]), c, version, Refresh, Written);
    var plan := PlanOf(cfg, s, u, job);
    assert s.rows[u].ids - row.ids == {};
    assert Puts(u, [], Stamp(Sha(c), version), 1) == [];
    assert plan == [Record(u, row)];
    steps := RunCutJob(cfg, first, u, job, 1);
    assert plan[..1] == [Record(u, row)];
    ApplyOne(s, Record(u, row));
    var t := Final(cfg, steps).store;
    NothingMissing(t, u, raw, row);
    StampedMeansBacked(t, u, raw, row);
    assert Chunk(0, 0, Summary) in Wanted(cfg, u, c);
  }

  lemma StampedMeansBacked(t: Store, u: Uri, chunks: seq<Chunk>, row: Row)
    requires row.ids == Ids(u, chunks) && AllStamped(t, u, chunks, row.stamp)
    ensures IdsBacked(t, row, Full)
  {
    forall id | id in row.ids
      ensures exists coll :: Stamped(t, Key(coll, id), row.stamp, Full)
    {
      var ch :| ch in chunks && KeyOf(u, ch).id == id;
      assert Stamped(t, Key(CollectionOf(ch), id), row.stamp, Full);
    }
  }
}
