/** The index and the registry as objects updated in place, one store call at a time. Every
    method can be cut short: a call fails once `calls` is used up. */
module Backend {
  import opened Stores
  import opened Lists
  import opened Plans
  import opened Claims
  import opened ClaimLimits

  /** The collection a point is put into. */
  function Home(w: Write): Collection {
    match w case Put(key, _) => key.collection case _ => Text
  }

  function SentTo(collection: Collection): Write -> bool {
    (w: Write) => Home(w) == collection
  }

  /** The upserts of one collection, in order. */
  function Bucket(ws: seq<Write>, collection: Collection): seq<Write> {
    Pick(ws, SentTo(collection))
  }

  /** The order in which `upsert` sends its points. */
  function SendOrder(ws: seq<Write>): seq<Write> {
    if ws == [] then [] else Bucket(ws, Home(ws[0])) + Bucket(ws, Other(Home(ws[0])))
  }

  lemma BucketsApart(ws: seq<Write>, c: Collection, d: Collection)
    ensures Bucket(Bucket(ws, c), d) == if c == d then Bucket(ws, c) else []
  {
    forall w | w in Bucket(ws, c)
      ensures SentTo(c)(w)
    {
      PickMembers(ws, SentTo(c), w);
    }
    if c == d {
      PickAll(Bucket(ws, c), SentTo(d));
    } else {
      PickNone(Bucket(ws, c), SentTo(d));
    }
  }

  /** Each collection is sent what is its own, in order, and the collection met first goes first. */
  lemma LeadGoesFirst(ws: seq<Write>)
    requires ws != []
    ensures forall c :: Bucket(SendOrder(ws), c) == Bucket(ws, c)
    ensures var sent := SendOrder(ws);
      forall i, j :: 0 <= i < j < |sent| && Home(sent[j]) == Home(ws[0]) ==> Home(sent[i]) == Home(ws[0])
  {
    var lead := Home(ws[0]);
    var first, second := Bucket(ws, lead), Bucket(ws, Other(lead));
    forall c
      ensures Bucket(SendOrder(ws), c) == Bucket(ws, c)
    {
      PickAppend(first, second, SentTo(c));
      BucketsApart(ws, lead, c);
      BucketsApart(ws, Other(lead), c);
      assert c == lead || c == Other(lead);
    }
    forall w
      ensures w in first ==> Home(w) == lead
      ensures w in second ==> Home(w) != lead
    {
      PickMembers(ws, SentTo(lead), w);
      PickMembers(ws, SentTo(Other(lead)), w);
    }
  }

  lemma {:induction false} BucketOfPuts(u: Uri, chunks: seq<Chunk>, stamp: Stamp, at: nat, collection: Collection)
    ensures Bucket(Puts(u, chunks, stamp, at), collection) == Puts(u, OfCollection(chunks, collection), stamp, at)
  {
    if chunks != [] {
      var rest, last := chunks[..|chunks| - 1], chunks[|chunks| - 1];
      BucketOfPuts(u, rest, stamp, at, collection);
      OneChunkMore(u, rest, last, stamp, at);
      OneChunkMore(u, OfCollection(rest, collection), last, stamp, at);
      assert chunks == rest + [last];
      PickOneMore(Puts(u, rest, stamp, at), Put(KeyOf(u, last), Point(stamp, last.artifact, false, Some(at))), SentTo(collection));
    }
  }

  lemma PutsConcat(u: Uri, a: seq<Chunk>, b: seq<Chunk>, stamp: Stamp, at: nat)
    ensures Puts(u, a + b, stamp, at) == Puts(u, a, stamp, at) + Puts(u, b, stamp, at)
  {
  }

  lemma BucketedPuts(u: Uri, chunks: seq<Chunk>, stamp: Stamp, at: nat, lead: Collection)
    ensures var ws := Puts(u, chunks, stamp, at);
      Bucket(ws, lead) + Bucket(ws, Other(lead)) == Puts(u, Bucketed(chunks, lead), stamp, at)
  {
    BucketOfPuts(u, chunks, stamp, at, lead);
    BucketOfPuts(u, chunks, stamp, at, Other(lead));
    PutsConcat(u, OfCollection(chunks, lead), OfCollection(chunks, Other(lead)), stamp, at);
  }

  lemma SendOrderOfPuts(u: Uri, chunks: seq<Chunk>, stamp: Stamp, at: nat)
    ensures SendOrder(Puts(u, chunks, stamp, at)) == Puts(u, InOrder(chunks), stamp, at)
  {
    if chunks != [] {
      var ws := Puts(u, chunks, stamp, at);
      assert Home(ws[0]) == CollectionOf(chunks[0]);
      BucketedPuts(u, chunks, stamp, at, CollectionOf(chunks[0]));
    }
  }

  /** Which collections occur, in order of first occurrence. */
  function Order(ws: seq<Write>): seq<Collection> {
    if ws == [] then []
    else
      var before, home := Order(ws[..|ws| - 1]), Home(ws[|ws| - 1]);
      if home in before then before else before + [home]
  }

  lemma {:induction false} OrderIs(ws: seq<Write>)
    ensures forall c :: c !in Order(ws) ==> Bucket(ws, c) == []
    ensures ws != [] ==> Order(ws) == [Home(ws[0])] || Order(ws) == [Home(ws[0]), Other(Home(ws[0]))]
  {
    if ws != [] {
      var rest := ws[..|ws| - 1];
      OrderIs(rest);
      assert rest == [] ==> Order(rest) == [] && forall c :: Bucket(rest, c) == [];
    }
  }

  /** The dictionary of buckets with its insertion order. */
  method MakeBuckets(embedded: seq<Write>) returns (order: seq<Collection>, buckets: map<Collection, seq<Write>>)
    requires forall w :: w in embedded ==> w.Put?
    ensures |order| <= 2 && forall c :: c in order ==> c in buckets && forall w: Write :: w in buckets[c] ==> w.Put?
    ensures Flatten(order, buckets) == SendOrder(embedded)
  {
    order, buckets := [], map[];
    for i := 0 to |embedded|
      invariant order == Order(embedded[..i])
      invariant forall c :: c in buckets <==> c in order
      invariant forall c :: c in order ==> buckets[c] == Bucket(embedded[..i], c)
    {
      NextBucket(embedded, i);
      var c := Home(embedded[i]);
      if c !in buckets {
        order, buckets := order + [c], buckets[c := []];
      }
      buckets := buckets[c := buckets[c] + [embedded[i]]];
    }
    assert embedded[..|embedded|] == embedded;
    OrderIs(embedded);
    FlattenIsSendOrder(embedded, order, buckets);
    forall c, w | c in order && w in buckets[c]
      ensures w.Put?
    {
      PickMembers(embedded, SentTo(c), w);
    }
  }

  lemma NextBucket(ws: seq<Write>, i: nat)
    requires i < |ws|
    ensures var home := Home(ws[i]);
      && Order(ws[..i + 1]) == Order(ws[..i]) + (if home in Order(ws[..i]) then [] else [home])
      && (home !in Order(ws[..i]) ==> Bucket(ws[..i], home) == [])
      && forall c :: Bucket(ws[..i + 1], c) == Bucket(ws[..i], c) + if c == home then [ws[i]] else []
  {
    assert ws[..i + 1][..i] == ws[..i] && ws[..i + 1] == ws[..i] + [ws[i]];
    OrderIs(ws[..i]);
    forall c
      ensures Bucket(ws[..i + 1], c) == Bucket(ws[..i], c) + if c == Home(ws[i]) then [ws[i]] else []
    {
      PickOneMore(ws[..i], ws[i], SentTo(c));
    }
  }

  function Flatten(order: seq<Collection>, buckets: map<Collection, seq<Write>>): seq<Write>
    requires |order| <= 2 && forall c :: c in order ==> c in buckets
  {
    (if |order| > 0 then buckets[order[0]] else []) + if |order| > 1 then buckets[order[1]] else []
  }

  lemma FlattenAppend(order: seq<Collection>, buckets: map<Collection, seq<Write>>, b: nat)
    requires b < |order| <= 2 && forall c :: c in order ==> c in buckets
    ensures Flatten(order[..b + 1], buckets) == Flatten(order[..b], buckets) + buckets[order[b]]
  {
  }

  lemma FlattenIsSendOrder(ws: seq<Write>, order: seq<Collection>, buckets: map<Collection, seq<Write>>)
    requires order == Order(ws) && |order| <= 2 && forall c :: c in order ==> c in buckets && buckets[c] == Bucket(ws, c)
    ensures Flatten(order, buckets) == SendOrder(ws)
  {
    OrderIs(ws);
  }

  lemma FlattenPrefix(order: seq<Collection>, buckets: map<Collection, seq<Write>>, b: nat, more: seq<Write>)
    requires b < |order| <= 2 && forall c :: c in order ==> c in buckets
    requires more <= buckets[order[b]]
    ensures Flatten(order[..b], buckets) + more <= Flatten(order, buckets)
  {
  }

  /** Part of the second of three pieces is a proper prefix of all of them. */
  lemma CutShort(a: seq<Write>, part: seq<Write>, b: seq<Write>, c: seq<Write>)
    requires part <= b && c != []
    ensures a + part <= a + b + c && a + part != a + b + c
  {
    assert (a + b + c)[..|a + part|] == a + part;
  }

  class Backend {
    var points: map<Key, Point>
    var rows: map<Uri, Row>
    /** Store calls that will still succeed. */
    var calls: nat

    constructor (calls: nat)
      ensures Now() == EMPTY && this.calls == calls
    {
      points, rows, this.calls := map[], map[], calls;
    }

    ghost function Now(): Store
      reads this
    {
      Store(points, rows)
    }

    // ---------------------------------------------------------- registry

    method MarkResourceIndexPending(u: Uri) returns (ok: bool)
      modifies this
      ensures (ok <==> old(calls) > 0) && calls == if ok then old(calls) - 1 else 0
      ensures Now() == ApplyAll(old(Now()), if ok then [Mark(u)] else [])
      ensures ok ==> points == old(points) && u in rows && rows - {u} == old(rows) - {u}
      ensures ok ==> rows[u] == if u in old(rows) then old(rows)[u].(status := Pending) else Row(Stamp(Blank, 0), {}, Pending, false)
    {
      if calls == 0 {
        return false;
      }
      calls := calls - 1;
      if u in rows {
        rows := rows[u := rows[u].(status := Pending)];
      } else {
        rows := rows[u := STUB];
      }
      ApplyOne(old(Now()), Mark(u));
      return true;
    }

    method UpsertResourceManifest(u: Uri, row: Row) returns (ok: bool)
      modifies this
      ensures (ok <==> old(calls) > 0) && calls == if ok then old(calls) - 1 else 0
      ensures Now() == ApplyAll(old(Now()), if ok then [Record(u, row)] else [])
      ensures ok ==> points == old(points) && rows == old(rows)[u := row]
    {
      if calls == 0 {
        return false;
      }
      calls := calls - 1;
      rows := rows[u := row];
      ApplyOne(old(Now()), Record(u, row));
      return true;
    }

    method DeleteResourceManifest(u: Uri) returns (ok: bool)
      modifies this
      ensures (ok <==> old(calls) > 0) && calls == if ok then old(calls) - 1 else 0
      ensures Now() == ApplyAll(old(Now()), if ok then [Forget(u)] else [])
      ensures ok ==> points == old(points) && rows == old(rows) - {u}
    {
      if calls == 0 {
        return false;
      }
      calls := calls - 1;
      rows := rows - {u};
      ApplyOne(old(Now()), Forget(u));
      return true;
    }

    // ---------------------------------------------------------- index

    /** One `client.upsert` of a batch. */
    method Send(batch: seq<Write>) returns (ok: bool)
      requires forall w :: w in batch ==> w.Put?
      modifies this
      ensures (ok <==> old(calls) > 0) && calls == if ok then old(calls) - 1 else 0
      ensures Now() == ApplyAll(old(Now()), if ok then batch else [])
    {
      if calls == 0 {
        return false;
      }
      calls := calls - 1;
      var i := 0;
      while i < |batch|
        invariant 0 <= i <= |batch|
        invariant Now() == ApplyAll(old(Now()), batch[..i]) && calls == old(calls) - 1
      {
        assert batch[i] in batch;
        points := points[batch[i].key := batch[i].point];
        assert batch[..i + 1] == batch[..i] + [batch[i]];
        ApplyAllConcat(old(Now()), batch[..i], [batch[i]]);
        ApplyOne(ApplyAll(old(Now()), batch[..i]), batch[i]);
        i := i + 1;
      }
      assert batch[..i] == batch;
      return true;
    }

    /** Sends one bucket in batches of `size`. */
    method SendBucket(bucket: seq<Write>, size: nat) returns (ok: bool, ghost sent: seq<Write>)
      requires size > 0 && forall w :: w in bucket ==> w.Put?
      modifies this
      ensures Now() == ApplyAll(old(Now()), sent) && (!ok ==> calls == 0)
      ensures sent <= bucket && (ok ==> sent == bucket)
    {
      sent := [];
      var start := 0;
      while start < |bucket|
        invariant 0 <= start <= |bucket| && sent == bucket[..start]
        invariant Now() == ApplyAll(old(Now()), sent)
      {
        var end := if start + size < |bucket| then start + size else |bucket|;
        ok := Send(bucket[start..end]);
        if !ok {
          return;
        }
        ApplyAllConcat(old(Now()), sent, bucket[start..end]);
        assert bucket[..end] == bucket[..start] + bucket[start..end];
        sent, start := bucket[..end], end;
      }
      ok := true;
    }

    /** Buckets the points by collection and sends each bucket in batches of `size`. Cut short, it
        has sent a prefix of what it would have sent. */
    method Upsert(embedded: seq<Write>, size: nat) returns (ok: bool, ghost sent: seq<Write>)
      requires size > 0 && forall w :: w in embedded ==> w.Put?
      modifies this
      ensures Now() == ApplyAll(old(Now()), sent) && (!ok ==> calls == 0)
      ensures sent <= SendOrder(embedded)
      ensures ok ==> sent == SendOrder(embedded)
    {
      var order, buckets := MakeBuckets(embedded);
      sent := [];
      var b := 0;
      while b < |order|
        invariant 0 <= b <= |order| <= 2
        invariant Now() == ApplyAll(old(Now()), sent)
        invariant sent == Flatten(order[..b], buckets)
      {
        ghost var more: seq<Write>;
        ok, more := SendBucket(buckets[order[b]], size);
        ApplyAllConcat(old(Now()), sent, more);
        if !ok {
          FlattenPrefix(order, buckets, b, more);
          sent := sent + more;
          return;
        }
        FlattenAppend(order, buckets, b);
        sent, b := sent + more, b + 1;
      }
      ok := true;
      assert order[..b] == order;
    }

    /** `delete_points_by_ids`: at most one call per collection, none for an empty set. */
    method DeletePointsByIds(u: Uri, code: set<ChunkId>, text: set<ChunkId>) returns (ok: bool, ghost done: seq<Write>)
      modifies this
      ensures Now() == ApplyAll(old(Now()), done) && (!ok ==> calls == 0)
      ensures done <= DropStale(u, Code, code) + DropStale(u, Text, text)
      ensures ok ==> done == DropStale(u, Code, code) + DropStale(u, Text, text)
      ensures rows == old(rows)
      ensures ok ==> points == map k | k in old(points) && !(k.id in if k.collection == Code then code else text) :: old(points)[k]
    {
      done := [];
      if code != {} {
        if calls == 0 {
          return false, done;
        }
        calls := calls - 1;
        points := map k | k in points && !(k.collection == Code && k.id in code) :: points[k];
        done := [Drop(Code, u, code)];
        ApplyOne(old(Now()), Drop(Code, u, code));
      }
      if text != {} {
        if calls == 0 {
          return false, done;
        }
        calls := calls - 1;
        points := map k | k in points && !(k.collection == Text && k.id in text) :: points[k];
        ApplyAllConcat(old(Now()), done, [Drop(Text, u, text)]);
        ApplyOne(ApplyAll(old(Now()), done), Drop(Text, u, text));
        done := done + [Drop(Text, u, text)];
      }
      return true, done;
    }

    // ---------------------------------------------------------- reindex_resource

    /** Embeds and upserts the chunks, if there are any; `embeds` tells whether the embedder answers. */
    method UpsertChunks(u: Uri, chunks: seq<Chunk>, stamp: Stamp, at: nat, embeds: bool, size: nat)
        returns (ok: bool, ghost sent: seq<Write>)
      requires size > 0
      modifies this
      ensures Now() == ApplyAll(old(Now()), sent) && (!ok ==> calls == 0 || (chunks != [] && !embeds))
      ensures sent <= Puts(u, InOrder(chunks), stamp, at)
      ensures ok ==> sent == Puts(u, InOrder(chunks), stamp, at)
    {
      if chunks == [] {
        return true, [];
      }
      if !embeds {
        return false, [];
      }
      ok, sent := Upsert(Puts(u, chunks, stamp, at), size);
      SendOrderOfPuts(u, chunks, stamp, at);
    }

    /** Mark, upsert, delete what is stale, record: however it ends, the writes done are a prefix
        of the plan, and all of it exactly when it succeeds. */
    method ReindexResource(cfg: Cfg, u: Uri, c: Content, version: nat, at: nat, embeds: bool, size: nat)
        returns (ok: bool, ghost done: seq<Write>)
      requires size > 0
      modifies this
      ensures Now() == ApplyAll(old(Now()), done)
      ensures !ok ==> calls == 0 || (RawChunks(cfg, u, c) != [] && !embeds)
      ensures done <= ReindexPlan(cfg, old(Now()), u, c, version, at)
      ensures ok <==> done == ReindexPlan(cfg, old(Now()), u, c, version, at)
    {
      ghost var s := Now();
      var stamp, chunks := Stamp(Sha(c), version), RawChunks(cfg, u, c);
      var ids := Ids(u, chunks);
      ghost var puts := Puts(u, InOrder(chunks), stamp, at);
      ghost var drops := DropStale(u, Code, IdsIn(s, u, Code) - ids) + DropStale(u, Text, IdsIn(s, u, Text) - ids);
      ghost var row := Row(stamp, ids, Indexed, u in s.rows && s.rows[u].graphFresh);
      ReindexPlanParts(cfg, s, u, c, version, at, puts, drops, row);
      done := [];
      ok := MarkResourceIndexPending(u);
      if !ok {
        return;
      }
      done := [Mark(u)];
      ApplyOne(s, Mark(u));
      var oldCode := set k | k in points && k.collection == Code && k.id.uri == u :: k.id;
      var oldText := set k | k in points && k.collection == Text && k.id.uri == u :: k.id;
      assert oldCode == IdsIn(s, u, Code) && oldText == IdsIn(s, u, Text);
      ghost var sent: seq<Write>;
      ok, sent := UpsertChunks(u, chunks, stamp, at, embeds, size);
      ApplyAllConcat(s, done, sent);
      CutShort(done, sent, puts, drops + [Record(u, row)]);
      done := done + sent;
      if !ok {
        return;
      }
      assert done == [Mark(u)] + puts;
      ghost var dropped: seq<Write>;
      ok, dropped := DeletePointsByIds(u, oldCode - ids, oldText - ids);
      ApplyAllConcat(s, done, dropped);
      CutShort(done, dropped, drops, [Record(u, row)]);
      done := done + dropped;
      if !ok {
        return;
      }
      ReindexRowsSoFar(s, u, InOrder(chunks), stamp, at, IdsIn(s, u, Code) - ids, IdsIn(s, u, Text) - ids);
      ok := UpsertResourceManifest(u, Row(stamp, ids, Indexed, u in rows && rows[u].graphFresh));
      if ok {
        ApplyAllConcat(s, done, [Record(u, row)]);
        done := done + [Record(u, row)];
      }
    }
  }

  lemma ReindexPlanParts(cfg: Cfg, s: Store, u: Uri, c: Content, version: nat, at: nat, puts: seq<Write>, drops: seq<Write>, row: Row)
    requires var chunks := RawChunks(cfg, u, c);
      var ids := Ids(u, chunks);
      && puts == Puts(u, InOrder(chunks), Stamp(Sha(c), version), at)
      && drops == DropStale(u, Code, IdsIn(s, u, Code) - ids) + DropStale(u, Text, IdsIn(s, u, Text) - ids)
      && row == Row(Stamp(Sha(c), version), ids, Indexed, u in s.rows && s.rows[u].graphFresh)
    ensures ReindexPlan(cfg, s, u, c, version, at) == [Mark(u)] + puts + drops + [Record(u, row)]
    ensures [Mark(u)] + puts + drops + [Record(u, row)] == [Mark(u)] + puts + (drops + [Record(u, row)])
  {
  }

  lemma ReindexRowsSoFar(s: Store, u: Uri, chunks: seq<Chunk>, stamp: Stamp, at: nat, code: set<ChunkId>, text: set<ChunkId>)
    requires forall id :: id in code + text ==> id.uri == u
    ensures var t := ApplyAll(s, [Mark(u)] + Puts(u, chunks, stamp, at) + (DropStale(u, Code, code) + DropStale(u, Text, text)));
      u in t.rows && (t.rows[u].graphFresh <==> u in s.rows && s.rows[u].graphFresh)
  {
    var puts, drops := Puts(u, chunks, stamp, at), DropStale(u, Code, code) + DropStale(u, Text, text);
    ApplyAllConcat(s, [Mark(u)], puts);
    ApplyAllConcat(s, [Mark(u)] + puts, drops);
    ApplyOne(s, Mark(u));
    PutsEffect(Apply(s, Mark(u)), u, chunks, stamp, at);
    DropsEffect(ApplyAll(Apply(s, Mark(u)), puts), u, drops);
  }

  // ------------------------------------------------------------ never lost

  function ResourceIds(s: Store, u: Uri): set<ChunkId> {
    IdsIn(s, u, Code) + IdsIn(s, u, Text)
  }

  lemma {:induction false} WithoutDropsPointsStay(s: Store, ws: seq<Write>)
    requires forall w :: w in ws ==> !w.Drop?
    ensures s.points.Keys <= ApplyAll(s, ws).points.Keys
    decreases |ws|
  {
    if ws != [] {
      assert ws[0] in ws;
      WithoutDropsPointsStay(Apply(s, ws[0]), ws[1..]);
    }
  }

  lemma ReindexPlanShape(cfg: Cfg, s: Store, u: Uri, c: Content, version: nat, at: nat)
      returns (chunks: seq<Chunk>, drops: seq<Write>, row: Row)
    ensures ReindexPlan(cfg, s, u, c, version, at) == Shaped(u, true, chunks, at, drops, row)
    ensures chunks == InOrder(RawChunks(cfg, u, c)) && Keys(u, chunks) == Keys(u, RawChunks(cfg, u, c))
    ensures row.stamp == Stamp(Sha(c), version) && row.ids == Ids(u, RawChunks(cfg, u, c)) && row.status == Indexed
    ensures DropsOnly(drops, u)
    ensures forall key :: Dropped(drops, key) <==> key.id in IdsIn(s, u, key.collection) - row.ids
  {
    var raw := RawChunks(cfg, u, c);
    chunks := InOrder(raw);
    if raw != [] {
      BucketedSame(u, raw, CollectionOf(raw[0]));
    }
    var a, b := IdsIn(s, u, Code) - Ids(u, raw), IdsIn(s, u, Text) - Ids(u, raw);
    drops := DropStale(u, Code, a) + DropStale(u, Text, b);
    row := Row(Stamp(Sha(c), version), Ids(u, raw), Indexed, u in s.rows && s.rows[u].graphFresh);
    forall key
      ensures Dropped(drops, key) <==> key.id in IdsIn(s, u, key.collection) - row.ids
    {
      DroppedByStale(u, a, b, key);
    }
  }

  lemma DroppedByStale(u: Uri, code: set<ChunkId>, text: set<ChunkId>, key: Key)
    ensures Dropped(DropStale(u, Code, code) + DropStale(u, Text, text), key) <==> key.id in if key.collection == Code then code else text
  {
    var drops := DropStale(u, Code, code) + DropStale(u, Text, text);
    assert forall w :: w in drops <==> w in DropStale(u, Code, code) || w in DropStale(u, Text, text);
    var w := Drop(key.collection, u, if key.collection == Code then code else text);
    if w.ids != {} {
      assert w in DropStale(u, key.collection, w.ids);
    }
  }

  /** The state once the marks, the puts and the first `n` drops of a shaped plan are done. */
  lemma MidwayEffect(s: Store, u: Uri, chunks: seq<Chunk>, stamp: Stamp, at: nat, drops: seq<Write>, n: nat)
    requires DropsOnly(drops, u) && n <= |drops|
    ensures var t := ApplyAll(s, [Mark(u)] + Puts(u, chunks, stamp, at) + drops[..n]);
      forall key :: key in t.points <==> (key in s.points || key in Keys(u, chunks)) && !Dropped(drops[..n], key)
  {
    var puts := Puts(u, chunks, stamp, at);
    assert forall w :: w in drops[..n] ==> w in drops;
    ApplyAllConcat(s, [Mark(u)] + puts, drops[..n]);
    ApplyAllConcat(s, [Mark(u)], puts);
    ApplyOne(s, Mark(u));
    PutsEffect(Apply(s, Mark(u)), u, chunks, stamp, at);
    DropsEffect(ApplyAll(s, [Mark(u)] + puts), u, drops[..n]);
  }

  lemma NewIdsHeld(t: Store, u: Uri, chunks: seq<Chunk>)
    requires forall key :: key in Keys(u, chunks) ==> key in t.points
    ensures Ids(u, chunks) <= ResourceIds(t, u)
  {
    forall id | id in Ids(u, chunks)
      ensures id in ResourceIds(t, u)
    {
      var ch :| ch in chunks && KeyOf(u, ch).id == id;
      assert KeyOf(u, ch) in Keys(u, chunks);
      assert id in IdsIn(t, u, KeyOf(u, ch).collection);
    }
  }

  /** On success a reindex leaves exactly the new ids. */
  lemma ReindexedIds(cfg: Cfg, s: Store, u: Uri, c: Content, version: nat, at: nat)
    ensures ResourceIds(ApplyAll(s, ReindexPlan(cfg, s, u, c, version, at)), u) == Ids(u, RawChunks(cfg, u, c))
  {
    var raw := RawChunks(cfg, u, c);
    var t := ApplyAll(s, ReindexPlan(cfg, s, u, c, version, at));
    forall key: Key | key.id.uri == u
      ensures key in t.points <==> key in Keys(u, raw) || (key in s.points && key.id in Ids(u, raw))
    {
      LeftoverKeysIff(cfg, s, u, c, version, at, key);
    }
    NewIdsHeld(t, u, raw);
    assert forall ch :: ch in raw ==> KeyOf(u, ch).id in Ids(u, raw);
  }

  /** After any number of a reindex's writes the index holds all old ids of the resource or all its
      new ones; after all of them, exactly the new ones. */
  lemma NeverLost(cfg: Cfg, s: Store, u: Uri, c: Content, version: nat, at: nat, k: nat)
    requires k <= |ReindexPlan(cfg, s, u, c, version, at)|
    ensures var plan := ReindexPlan(cfg, s, u, c, version, at);
      var t := ApplyAll(s, plan[..k]);
      var ids := Ids(u, RawChunks(cfg, u, c));
      && (ResourceIds(s, u) <= ResourceIds(t, u) || ids <= ResourceIds(t, u))
      && (k == |plan| ==> ResourceIds(t, u) == ids)
  {
    var plan := ReindexPlan(cfg, s, u, c, version, at);
    var chunks, drops, row := ReindexPlanShape(cfg, s, u, c, version, at);
    ShapedParts(u, true, chunks, at, drops, row);
    var t := ApplyAll(s, plan[..k]);
    if k == |plan| {
      assert plan[..k] == plan;
      ReindexedIds(cfg, s, u, c, version, at);
    } else if k <= 1 + |chunks| {
      assert forall w :: w in plan[..k] ==> !w.Drop?;
      WithoutDropsPointsStay(s, plan[..k]);
      assert ResourceIds(s, u) <= ResourceIds(t, u);
    } else {
      var n := k - 1 - |chunks|;
      assert plan[..k] == [Mark(u)] + Puts(u, chunks, row.stamp, at) + drops[..n];
      MidwayEffect(s, u, chunks, row.stamp, at, drops, n);
      assert forall key :: Dropped(drops[..n], key) ==> Dropped(drops, key);
      assert forall ch :: ch in RawChunks(cfg, u, c) ==> KeyOf(u, ch).id in row.ids;
      NewIdsHeld(t, u, RawChunks(cfg, u, c));
    }
  }

  /** A chunk that keeps its id but changes kind leaves its old point behind: a key of the resource
      survives a reindex exactly when it is one of the new chunks or shares the id of one. */
  lemma LeftoverKeysIff(cfg: Cfg, s: Store, u: Uri, c: Content, version: nat, at: nat, key: Key)
    requires key.id.uri == u
    ensures var t := ApplyAll(s, ReindexPlan(cfg, s, u, c, version, at));
      var chunks := RawChunks(cfg, u, c);
      key in t.points <==> key in Keys(u, chunks) || (key in s.points && key.id in Ids(u, chunks))
  {
    var chunks, drops, row := ReindexPlanShape(cfg, s, u, c, version, at);
    ShapedEffect(s, u, true, chunks, at, drops, row);
  }
}
