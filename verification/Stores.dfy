/** The two stores that indexing keeps in step, and the single writes that change them.

    `rows` is the SQLite manifest (`source_resources`), `points` the two Qdrant
    collections. No transaction spans both, so every change is a `Write` and a
    process may die between any two of them. */
module Stores {

  datatype Option<+T> = None | Some(value: T)

  /** A resource belongs to exactly one source key, here part of its name. */
  datatype Uri = Uri(owner: string, path: string)

  type Content = string

  /** sha256 of a content, taken to be injective; `Blank` is the empty string of a stub row. */
  datatype Digest = Blank | Sha(content: Content)

  datatype Collection = Code | Text

  /** uuid5 of product, uri and line range, taken to be injective. */
  datatype ChunkId = ChunkId(uri: Uri, first: nat, last: nat)

  /** A point is addressed by its collection and its id. */
  datatype Key = Key(collection: Collection, id: ChunkId)

  datatype Stamp = Stamp(hash: Digest, version: nat)

  datatype Artifact = CodeChunk | DocChunk | Summary | CommunitySummary

  /** The payload fields that indexing and the orphan sweep look at. `at` is
      `indexed_at`, `None` when it does not parse; `skill` is `source_id = "skill:*"`. */
  datatype Point = Point(stamp: Stamp, artifact: Artifact, skill: bool, at: Option<nat>)

  datatype Status = Pending | Indexed

  /** `graphFresh` is false exactly when a delta run asks for a graph refresh. */
  datatype Row = Row(stamp: Stamp, ids: set<ChunkId>, status: Status, graphFresh: bool)

  const STUB := Row(Stamp(Blank, 0), {}, Pending, false)

  datatype Store = Store(points: map<Key, Point>, rows: map<Uri, Row>)

  const EMPTY := Store(map[], map[])

  datatype Write =
    | Mark(uri: Uri)
    | Put(key: Key, point: Point)
    | Drop(collection: Collection, uri: Uri, ids: set<ChunkId>)
    | Record(uri: Uri, row: Row)
    | Forget(uri: Uri)

  function Target(w: Write): Uri {
    match w
    case Put(key, _) => key.id.uri
    case _ => w.uri
  }

  function Apply(s: Store, w: Write): Store {
    match w
    case Mark(u) =>
      s.(rows := s.rows[u := if u in s.rows then s.rows[u].(status := Pending) else STUB])
    case Put(key, point) =>
      s.(points := s.points[key := point])
    case Drop(c, _, ids) =>
      s.(points := map k | k in s.points && !(k.collection == c && k.id in ids) :: s.points[k])
    case Record(u, row) =>
      s.(rows := s.rows[u := row])
    case Forget(u) =>
      s.(rows := s.rows - {u})
  }

  function ApplyAll(s: Store, ws: seq<Write>): Store
    decreases |ws|
  {
    if ws == [] then s else ApplyAll(Apply(s, ws[0]), ws[1..])
  }

  lemma {:induction false} ApplyAllConcat(s: Store, a: seq<Write>, b: seq<Write>)
    ensures ApplyAll(s, a + b) == ApplyAll(ApplyAll(s, a), b)
    decreases |a|
  {
    if a == [] {
      assert a + b == b;
    } else {
      assert (a + b)[0] == a[0] && (a + b)[1..] == a[1..] + b;
      ApplyAllConcat(Apply(s, a[0]), a[1..], b);
    }
  }

  lemma ApplyOne(s: Store, a: Write)
    ensures ApplyAll(s, [a]) == Apply(s, a)
  {
    assert [a][1..] == [];
  }

  lemma ApplyTwo(s: Store, a: Write, b: Write)
    ensures ApplyAll(s, [a, b]) == Apply(Apply(s, a), b)
  {
    ApplyAllConcat(s, [a], [b]);
    assert [a] + [b] == [a, b];
    ApplyOne(s, a);
    ApplyOne(Apply(s, a), b);
  }

  /** Whether some collection holds a point with this id. */
  predicate Exists(s: Store, id: ChunkId) {
    Key(Code, id) in s.points || Key(Text, id) in s.points
  }

  // ------------------------------------------------------------ chunking

  type Line = n: nat | 1 <= n witness 1

  /** A chunk of `chunk_resource`; lines count from 1. */
  datatype Span = Span(first: Line, last: nat, code: bool)

  datatype Chunk = Chunk(first: nat, last: nat, artifact: Artifact)

  /** The deterministic parts of indexing: the chunker, whether graph extraction yields a
      summary and a community summary, and which source keys the daemon indexes. */
  datatype Cfg = Cfg(
    spans: (Uri, Content) -> seq<Span>,
    summary: (Uri, Content) -> bool,
    community: (Uri, Content) -> bool,
    daemon: string -> bool)

  function CollectionOf(ch: Chunk): Collection {
    if ch.artifact == CodeChunk then Code else Text
  }

  function Other(collection: Collection): Collection {
    if collection == Code then Text else Code
  }

  function KeyOf(u: Uri, ch: Chunk): Key {
    Key(CollectionOf(ch), ChunkId(u, ch.first, ch.last))
  }

  function FromSpans(spans: seq<Span>): (r: seq<Chunk>)
    ensures |r| == |spans|
    ensures forall i :: 0 <= i < |r| ==> r[i].first >= 1 && (r[i].artifact == CodeChunk || r[i].artifact == DocChunk)
  {
    seq(|spans|, i requires 0 <= i < |spans| =>
      Chunk(spans[i].first, spans[i].last, if spans[i].code then CodeChunk else DocChunk))
  }

  function RawChunks(cfg: Cfg, u: Uri, c: Content): seq<Chunk> {
    FromSpans(cfg.spans(u, c))
  }

  function SummaryChunks(cfg: Cfg, u: Uri, c: Content): seq<Chunk> {
    if cfg.summary(u, c) then [Chunk(0, 0, Summary)] else []
  }

  function CommunityChunks(cfg: Cfg, u: Uri, c: Content): seq<Chunk> {
    if cfg.community(u, c) then [Chunk(0, 1, CommunitySummary)] else []
  }

  /** What an ingest chunks a resource into, when graph extraction succeeds or fails. */
  function IngestChunks(cfg: Cfg, u: Uri, c: Content, extracted: bool): seq<Chunk> {
    RawChunks(cfg, u, c) + if extracted then SummaryChunks(cfg, u, c) + CommunityChunks(cfg, u, c) else []
  }

  /** Everything the owner's writer means to index. */
  function Wanted(cfg: Cfg, u: Uri, c: Content): seq<Chunk> {
    if cfg.daemon(u.owner) then RawChunks(cfg, u, c) else IngestChunks(cfg, u, c, true)
  }

  function Ids(u: Uri, chunks: seq<Chunk>): set<ChunkId> {
    set ch | ch in chunks :: KeyOf(u, ch).id
  }

  function Keys(u: Uri, chunks: seq<Chunk>): set<Key> {
    set ch | ch in chunks :: KeyOf(u, ch)
  }
}
