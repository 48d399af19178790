/** The writes each indexing operation performs, in order, computed from what it reads first. */
module Plans {
  import opened Stores
  import opened Lists

  datatype GraphOutcome = Written | WrittenPartially | WriteFailed | ExtractFailed

  datatype Action = Skip | Refresh | Added | Updated

  /** `_read_and_classify`: the unchanged test looks at hash and version, never at the status. */
  function Classify(prior: Option<Row>, c: Content, version: nat): Action {
    match prior
    case None => Added
    case Some(row) =>
      if row.stamp != Stamp(Sha(c), version) then Updated
      else if row.graphFresh then Skip
      else Refresh
  }

  function InCollection(collection: Collection): Chunk -> bool {
    (ch: Chunk) => CollectionOf(ch) == collection
  }

  function OfCollection(chunks: seq<Chunk>, collection: Collection): seq<Chunk> {
    Pick(chunks, InCollection(collection))
  }

  /** `upsert` sends one bucket per collection, the collection met first going first. */
  function Bucketed(chunks: seq<Chunk>, lead: Collection): seq<Chunk> {
    OfCollection(chunks, lead) + OfCollection(chunks, Other(lead))
  }

  function InOrder(chunks: seq<Chunk>): seq<Chunk> {
    if chunks == [] then [] else Bucketed(chunks, CollectionOf(chunks[0]))
  }

  /** Bucketing reorders chunks and nothing else. */
  lemma BucketedSame(u: Uri, chunks: seq<Chunk>, lead: Collection)
    ensures Keys(u, Bucketed(chunks, lead)) == Keys(u, chunks)
    ensures Ids(u, Bucketed(chunks, lead)) == Ids(u, chunks)
    ensures Bucketed(chunks, lead) == [] <==> chunks == []
  {
    var r := Bucketed(chunks, lead);
    forall ch
      ensures ch in r <==> ch in chunks
    {
      PickMembers(chunks, InCollection(lead), ch);
      PickMembers(chunks, InCollection(Other(lead)), ch);
    }
    if chunks != [] {
      assert chunks[0] in r;
    }
  }

  function Puts(u: Uri, chunks: seq<Chunk>, stamp: Stamp, at: nat): (r: seq<Write>)
    ensures |r| == |chunks|
    ensures forall i :: 0 <= i < |r| ==>
      r[i] == Put(KeyOf(u, chunks[i]), Point(stamp, chunks[i].artifact, false, Some(at)))
  {
    seq(|chunks|, i requires 0 <= i < |chunks| =>
      Put(KeyOf(u, chunks[i]), Point(stamp, chunks[i].artifact, false, Some(at))))
  }

  /** `delete_points_by_ids` of a plain list: one call per collection, none for an empty list. */
  function Drops(u: Uri, ids: set<ChunkId>): seq<Write> {
    if ids == {} then [] else [Drop(Code, u, ids), Drop(Text, u, ids)]
  }

  /** The chunks an ingest embeds and upserts: all of them, or only the community summary
      when the resource is refreshed. */
  function VectorChunks(cfg: Cfg, u: Uri, c: Content, action: Action, extracted: bool): seq<Chunk> {
    if action != Refresh then IngestChunks(cfg, u, c, extracted)
    else if extracted then CommunityChunks(cfg, u, c)
    else []
  }

  function NewIds(cfg: Cfg, u: Uri, prior: Option<Row>, c: Content, action: Action, extracted: bool): set<ChunkId> {
    if action != Refresh || VectorChunks(cfg, u, c, action, extracted) != []
    then Ids(u, IngestChunks(cfg, u, c, extracted))
    else if prior.Some? then prior.value.ids else {}
  }

  function NewRow(cfg: Cfg, u: Uri, prior: Option<Row>, c: Content, version: nat, action: Action, graph: GraphOutcome): Row {
    Row(Stamp(Sha(c), version),
        NewIds(cfg, u, prior, c, action, graph != ExtractFailed),
        Indexed,
        match graph
        case Written => true
        case WriteFailed => prior.Some? && prior.value.graphFresh
        case _ => false)
  }

  /** One resource of `_process_batch`; `lead` is the collection its batch sends first. */
  function IngestPlan(cfg: Cfg, prior: Option<Row>, u: Uri, c: Content, version: nat, at: nat, lead: Collection, graph: GraphOutcome): seq<Write> {
    var action := Classify(prior, c, version);
    var vector := Bucketed(VectorChunks(cfg, u, c, action, graph != ExtractFailed), lead);
    var row := NewRow(cfg, u, prior, c, version, action, graph);
    (if vector == [] then [] else [Mark(u)])
    + Puts(u, vector, Stamp(Sha(c), version), at)
    + Drops(u, (if prior.Some? then prior.value.ids else {}) - row.ids)
    + [Record(u, row)]
  }

  /** `ids_by_resource` for one collection. */
  function IdsIn(s: Store, u: Uri, collection: Collection): set<ChunkId> {
    set k | k in s.points && k.collection == collection && k.id.uri == u :: k.id
  }

  function DropStale(u: Uri, collection: Collection, stale: set<ChunkId>): seq<Write> {
    if stale == {} then [] else [Drop(collection, u, stale)]
  }

  /** `reindex_resource` with a registry; `s` is the index it scrolls for existing points. */
  function ReindexPlan(cfg: Cfg, s: Store, u: Uri, c: Content, version: nat, at: nat): seq<Write> {
    var chunks := RawChunks(cfg, u, c);
    var ids := Ids(u, chunks);
    [Mark(u)]
    + Puts(u, InOrder(chunks), Stamp(Sha(c), version), at)
    + DropStale(u, Code, IdsIn(s, u, Code) - ids)
    + DropStale(u, Text, IdsIn(s, u, Text) - ids)
    + [Record(u, Row(Stamp(Sha(c), version), ids, Indexed, u in s.rows && s.rows[u].graphFresh))]
  }

  /** A manifest row whose resource is gone from the source. */
  function RemovalPlan(u: Uri, row: Row): seq<Write> {
    Drops(u, row.ids) + [Forget(u)]
  }

  /** `_process_job`: re-upserts the raw chunks of the job's content. */
  function EnrichPlan(cfg: Cfg, u: Uri, c: Content, version: nat, at: nat): seq<Write> {
    Puts(u, InOrder(RawChunks(cfg, u, c)), Stamp(Sha(c), version), at)
  }
}
