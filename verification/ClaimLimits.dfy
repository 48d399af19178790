/** Where a claim stops being backed: the exact condition for each hypothesis of `ClaimsAreBacked`. */
module ClaimLimits {
  import opened Stores
  import opened Plans
  import opened Claims

  // ------------------------------------------------------------ what a plan does

  predicate DropsOnly(drops: seq<Write>, u: Uri) {
    forall w :: w in drops ==> w.Drop? && w.uri == u && forall id :: id in w.ids ==> id.uri == u
  }

  /** Some drop of the list removes this point. */
  predicate Dropped(drops: seq<Write>, key: Key)
  {
    exists w :: w in drops && w.Drop? && w.collection == key.collection && key.id in w.ids
  }

  lemma {:induction false} DropsEffect(s: Store, u: Uri, drops: seq<Write>)
    requires DropsOnly(drops, u)
    ensures var t := ApplyAll(s, drops);
      && t.rows == s.rows
      && (forall key :: key in t.points <==> key in s.points && !Dropped(drops, key))
      && (forall key :: key in t.points ==> t.points[key] == s.points[key])
    decreases |drops|
  {
    if drops != [] {
      assert drops[0] in drops;
      var mid, rest := Apply(s, drops[0]), drops[1..];
      assert forall w :: w in rest ==> w in drops;
      DropsEffect(mid, u, rest);
      forall key
        ensures Dropped(drops, key) <==> Dropped([drops[0]], key) || Dropped(rest, key)
      {
        assert drops == [drops[0]] + rest;
      }
      assert forall key :: Dropped([drops[0]], key) <==> drops[0].collection == key.collection && key.id in drops[0].ids by {
        assert drops[0] in [drops[0]];
      }
    }
  }

  /** The point stands for one of the chunks, freshly written. */
  ghost predicate FromChunk(u: Uri, chunks: seq<Chunk>, key: Key, stamp: Stamp, at: nat, p: Point) {
    exists ch :: ch in chunks && KeyOf(u, ch) == key && p == Point(stamp, ch.artifact, false, Some(at))
  }

  lemma OneChunkMore(u: Uri, chunks: seq<Chunk>, last: Chunk, stamp: Stamp, at: nat)
    ensures Puts(u, chunks + [last], stamp, at)
      == Puts(u, chunks, stamp, at) + [Put(KeyOf(u, last), Point(stamp, last.artifact, false, Some(at)))]
    ensures Keys(u, chunks + [last]) == Keys(u, chunks) + {KeyOf(u, last)}
    ensures forall key, p :: FromChunk(u, chunks, key, stamp, at, p) ==> FromChunk(u, chunks + [last], key, stamp, at, p)
    ensures FromChunk(u, chunks + [last], KeyOf(u, last), stamp, at, Point(stamp, last.artifact, false, Some(at)))
  {
    assert last in chunks + [last];
  }

  lemma {:induction false} PutsEffect(s: Store, u: Uri, chunks: seq<Chunk>, stamp: Stamp, at: nat)
    ensures var t := ApplyAll(s, Puts(u, chunks, stamp, at));
      && t.rows == s.rows
      && t.points.Keys == s.points.Keys + Keys(u, chunks)
      && (forall key :: key in Keys(u, chunks) ==> FromChunk(u, chunks, key, stamp, at, t.points[key]))
      && (forall key :: key in s.points && key !in Keys(u, chunks) ==> t.points[key] == s.points[key])
    decreases |chunks|
  {
    if chunks == [] {
      assert Puts(u, chunks, stamp, at) == [];
    } else {
      var n := |chunks| - 1;
      var before, last := chunks[..n], chunks[n];
      var init := Puts(u, before, stamp, at);
      var final := Put(KeyOf(u, last), Point(stamp, last.artifact, false, Some(at)));
      assert chunks == before + [last];
      OneChunkMore(u, before, last, stamp, at);
      ApplyAllConcat(s, init, [final]);
      PutsEffect(s, u, before, stamp, at);
      ApplyOne(ApplyAll(s, init), final);
    }
  }

  /** The whole effect of a plan that marks, puts, drops and records. */
  lemma ShapedEffect(s: Store, u: Uri, marked: bool, chunks: seq<Chunk>, at: nat, drops: seq<Write>, row: Row)
    requires DropsOnly(drops, u)
    ensures var t := ApplyAll(s, Shaped(u, marked, chunks, at, drops, row));
      && t.rows == s.rows[u := row]
      && (forall key :: key in t.points <==> (key in s.points || key in Keys(u, chunks)) && !Dropped(drops, key))
      && (forall key :: key in t.points ==>
            if key in Keys(u, chunks)
            then FromChunk(u, chunks, key, row.stamp, at, t.points[key])
            else t.points[key] == s.points[key])
  {
    var a, b := if marked then [Mark(u)] else [], Puts(u, chunks, row.stamp, at);
    var s1 := ApplyAll(s, a);
    assert s1.points == s.points && s1.rows - {u} == s.rows - {u} by {
      if marked {
        ApplyOne(s, Mark(u));
      }
    }
    var s2, s3 := ApplyAll(s1, b), ApplyAll(ApplyAll(s1, b), drops);
    PutsEffect(s1, u, chunks, row.stamp, at);
    DropsEffect(s2, u, drops);
    ApplyAllConcat(s, a, b);
    ApplyAllConcat(s, a + b, drops);
    ApplyAllConcat(s, a + b + drops, [Record(u, row)]);
    ApplyOne(s3, Record(u, row));
    var t := ApplyAll(s, Shaped(u, marked, chunks, at, drops, row));
    assert t == Apply(s3, Record(u, row));
    SameButOne(s3.rows, s.rows, u, row);
  }

  lemma SameButOne(a: map<Uri, Row>, b: map<Uri, Row>, u: Uri, row: Row)
    requires a - {u} == b - {u}
    ensures a[u := row] == b[u := row]
  {
    assert a[u := row] == (a - {u})[u := row];
    assert b[u := row] == (b - {u})[u := row];
  }

  lemma DroppedByDrops(u: Uri, ids: set<ChunkId>, key: Key)
    ensures Dropped(Drops(u, ids), key) <==> key.id in ids
  {
    if key.id in ids {
      var w := Drop(key.collection, u, ids);
      assert Drops(u, ids) == [Drop(Code, u, ids), Drop(Text, u, ids)];
      assert key.collection == Code || key.collection == Text;
      assert w == Drops(u, ids)[0] || w == Drops(u, ids)[1];
    }
  }

  // ------------------------------------------------------------ graph refresh

  /** A refresh leaves a backed row exactly when every chunk the new row claims, other than a
      community summary put now, already had its point under the new stamp. */
  lemma RefreshBacksIff(cfg: Cfg, s: Store, u: Uri, c: Content, version: nat, at: nat, lead: Collection, graph: GraphOutcome)
    requires u in s.rows && WellShaped(cfg, u, s.rows[u])
    requires Classify(Prior(s, u), c, version) == Refresh
    ensures var t := ApplyAll(s, IngestPlan(cfg, Prior(s, u), u, c, version, at, lead, graph));
      var put := Keys(u, VectorChunks(cfg, u, c, Refresh, graph != ExtractFailed));
      && u in t.rows && t.rows[u].status == Indexed
      && (Backed(cfg, t, u, t.rows[u], Full) <==>
          forall key :: key in ClaimKeys(cfg, u, t.rows[u]) - put ==> Stamped(s, key, Stamp(Sha(c), version), Full))
  {
    var prior := Prior(s, u);
    var vector := Bucketed(VectorChunks(cfg, u, c, Refresh, graph != ExtractFailed), lead);
    var row := NewRow(cfg, u, prior, c, version, Refresh, graph);
    var stale := prior.value.ids - row.ids;
    var plan := IngestPlan(cfg, prior, u, c, version, at, lead, graph);
    BucketedSame(u, VectorChunks(cfg, u, c, Refresh, graph != ExtractFailed), lead);
    assert plan == Shaped(u, vector != [], vector, at, Drops(u, stale), row);
    assert forall id :: id in stale ==> id.uri == u;
    ShapedEffect(s, u, vector != [], vector, at, Drops(u, stale), row);
    var t := ApplyAll(s, plan);
    forall key | key in ClaimKeys(cfg, u, row)
      ensures Stamped(t, key, row.stamp, Full) <==> key in Keys(u, vector) || Stamped(s, key, row.stamp, Full)
    {
      DroppedByDrops(u, stale, key);
    }
  }

  // ------------------------------------------------------------ unmarked drops

  /** Removal deletes under a row it has not marked: between the deletes and the row's own deletion
      all rows are as before, and none of the ids this one claims exists. */
  lemma RemovalExposes(s: Store, u: Uri, row: Row)
    ensures var plan := RemovalPlan(u, row);
      var t := ApplyAll(s, plan[..|plan| - 1]);
      t.rows == s.rows && forall id :: id in row.ids ==> !Exists(t, id)
  {
    if row.ids != {} {
      var plan := RemovalPlan(u, row);
      assert plan[..2] == [Drop(Code, u, row.ids), Drop(Text, u, row.ids)];
      ApplyTwo(s, Drop(Code, u, row.ids), Drop(Text, u, row.ids));
    }
  }

  /** An ingest whose resource now yields no chunk is never marked pending before its old points go. */
  lemma NoVectorIngestExposes(cfg: Cfg, s: Store, u: Uri, c: Content, version: nat, at: nat, lead: Collection, graph: GraphOutcome)
    requires Classify(Prior(s, u), c, version) == Updated
    requires IngestChunks(cfg, u, c, graph != ExtractFailed) == []
    ensures var plan := IngestPlan(cfg, Prior(s, u), u, c, version, at, lead, graph);
      var t := ApplyAll(s, plan[..|plan| - 1]);
      t.rows == s.rows && forall id :: id in s.rows[u].ids ==> !Exists(t, id)
  {
    var row := s.rows[u];
    var plan := IngestPlan(cfg, Prior(s, u), u, c, version, at, lead, graph);
    var next := NewRow(cfg, u, Prior(s, u), c, version, Updated, graph);
    assert next.ids == {};
    assert row.ids - next.ids == row.ids;
    assert Puts(u, [], Stamp(Sha(c), version), at) == [];
    assert plan == Drops(u, row.ids) + [Record(u, next)];
    var removal := RemovalPlan(u, row);
    assert plan[..|plan| - 1] == removal[..|removal| - 1];
    RemovalExposes(s, u, row);
  }

  // ------------------------------------------------------------ late enrichment

  /** One enrichment write keeps a backed row backed exactly when it carries the row's stamp or
      misses every point the row claims. */
  lemma LateEnrichKeepsIff(cfg: Cfg, s: Store, u: Uri, c: Content, version: nat, at: nat, i: nat)
    requires i < |EnrichPlan(cfg, u, c, version, at)|
    requires u in s.rows && Backed(cfg, s, u, s.rows[u], Full)
    ensures var w := EnrichPlan(cfg, u, c, version, at)[i];
      Backed(cfg, Apply(s, w), u, s.rows[u], Full) <==>
      (s.rows[u].stamp == Stamp(Sha(c), version) || w.key !in ClaimKeys(cfg, u, s.rows[u]))
  {
    var w := EnrichPlan(cfg, u, c, version, at)[i];
    if w.key in ClaimKeys(cfg, u, s.rows[u]) {
      assert Stamped(Apply(s, w), w.key, s.rows[u].stamp, Full) <==> s.rows[u].stamp == Stamp(Sha(c), version);
    }
  }

  // ------------------------------------------------------------ overlapping reindexes

  /** What a reindex to `c` deletes, going by the index as it read it. */
  function StaleDrops(cfg: Cfg, s: Store, u: Uri, c: Content): seq<Write> {
    var ids := Ids(u, RawChunks(cfg, u, c));
    DropStale(u, Code, IdsIn(s, u, Code) - ids) + DropStale(u, Text, IdsIn(s, u, Text) - ids)
  }

  lemma StaleIsDropped(cfg: Cfg, s: Store, u: Uri, c: Content, key: Key)
    requires key in s.points && key.id.uri == u && key.id !in Ids(u, RawChunks(cfg, u, c))
    ensures DropsOnly(StaleDrops(cfg, s, u, c), u) && Dropped(StaleDrops(cfg, s, u, c), key)
  {
    var ids := Ids(u, RawChunks(cfg, u, c));
    var stale := IdsIn(s, u, key.collection) - ids;
    assert key.id in stale;
    var drop := Drop(key.collection, u, stale);
    assert DropStale(u, key.collection, stale)[0] == drop;
    assert drop in StaleDrops(cfg, s, u, c);
  }

  lemma ReindexParts(cfg: Cfg, s: Store, u: Uri, c: Content, version: nat, at: nat)
    ensures var plan := ReindexPlan(cfg, s, u, c, version, at);
      var n, last := 1 + |InOrder(RawChunks(cfg, u, c))|, |plan| - 1;
      var row := Row(Stamp(Sha(c), version), Ids(u, RawChunks(cfg, u, c)), Indexed, u in s.rows && s.rows[u].graphFresh);
      n <= last && plan[n..] == StaleDrops(cfg, s, u, c) + [Record(u, row)] && plan[last..] == [Record(u, row)]
  {
  }

  lemma DropsThenRecords(mid: Store, u: Uri, drops: seq<Write>, first: Row, second: Row, key: Key)
    requires DropsOnly(drops, u) && Dropped(drops, key)
    ensures var t := ApplyAll(ApplyAll(mid, drops + [Record(u, first)]), [Record(u, second)]);
      u in t.rows && t.rows[u] == second && key !in t.points
  {
    ApplyAllConcat(mid, drops, [Record(u, first)]);
    DropsEffect(mid, u, drops);
    ApplyOne(ApplyAll(mid, drops), Record(u, first));
    ApplyOne(Apply(ApplyAll(mid, drops), Record(u, first)), Record(u, second));
  }

  /** Two overlapping reindexes of one resource, as the watch loop and the maintenance loop of the
      daemon allow: `b` has put its chunks, `a` runs up to its row, `b` finishes, `a` writes its
      row. Every point of `a` that was there before and is not one of `b`'s is claimed and gone. */
  lemma OverlappingReindexesLoseClaims(cfg: Cfg, s: Store, u: Uri, a: Content, b: Content, version: nat, at: nat, key: Key)
    requires cfg.daemon(u.owner)
    requires key in Keys(u, RawChunks(cfg, u, a)) && key in s.points && key.id !in Ids(u, RawChunks(cfg, u, b))
    ensures
      var x, y := ReindexPlan(cfg, s, u, b, version, at), ReindexPlan(cfg, s, u, a, version, at);
      var n, last := 1 + |InOrder(RawChunks(cfg, u, b))|, |y| - 1;
      var t := ApplyAll(s, x[..n] + y[..last] + x[n..] + y[last..]);
      u in t.rows && t.rows[u].status == Indexed && key in ClaimKeys(cfg, u, t.rows[u]) && key !in t.points
  {
    var x, y := ReindexPlan(cfg, s, u, b, version, at), ReindexPlan(cfg, s, u, a, version, at);
    var n, last := 1 + |InOrder(RawChunks(cfg, u, b))|, |y| - 1;
    ReindexParts(cfg, s, u, b, version, at);
    ReindexParts(cfg, s, u, a, version, at);
    ApplyAllConcat(s, x[..n] + y[..last], x[n..]);
    ApplyAllConcat(s, x[..n] + y[..last] + x[n..], y[last..]);
    StaleIsDropped(cfg, s, u, b, key);
    DropsThenRecords(ApplyAll(s, x[..n] + y[..last]), u, StaleDrops(cfg, s, u, b), x[|x| - 1].row, y[last].row, key);
    RawIsClaimed(cfg, u, a, y[last].row, key);
  }

  lemma RawIsClaimed(cfg: Cfg, u: Uri, c: Content, row: Row, key: Key)
    requires cfg.daemon(u.owner) && row.stamp.hash == Sha(c) && row.ids == Ids(u, RawChunks(cfg, u, c))
    requires key in Keys(u, RawChunks(cfg, u, c))
    ensures key in ClaimKeys(cfg, u, row)
  {
  }
}
