/** The catalog's tables, and what each committed transaction does to them
    (internal/adapters/sqlite). */
module Catalog {
  import opened Bytes
  import opened Text
  import opened Domain

  type Path = Str

  /** A content hash; equal hashes are equal bytes. "" is the source's spelling of no hash. */
  type Hash = h: Str | h != [] witness [0]

  datatype UnreadReason = Denied | Dataless | IoError

  /** The schema's CHECK: a row has either a content hash or the reason it has none. */
  datatype Source = Read(hash: Hash) | Unread(reason: UnreadReason)

  datatype Row = Row(source: Source, size: int, mtime: int)

  datatype Document = Document(path: Path, row: Row)

  datatype State = Discovered | Converted | Chunked | Embedded | Indexed | Failed {
    predicate Terminal() { Indexed? || Failed? }
  }

  type Versions = map<Str, Str>

  datatype Content = Content(state: State, versions: Versions, attempts: int, nextRetryAt: Option<int>, updatedAt: int)

  datatype ChunkRow = ChunkRow(hash: Hash, chunk: Chunk)

  /** vecDescriptor as stored; layout and metric are empty in rows older than those fields. */
  datatype Descriptor = Descriptor(
    model: Str, dims: nat, layout: Str, metric: Str,
    queryTemplate: Str, passageTemplate: Str, ceilingTokens: int)
  {
    function Normalized(): Descriptor {
      var d := if layout == [] then this.(layout := FLOAT32) else this;
      if metric == [] then d.(metric := L2) else d
    }

    /** What two generations must share for their vectors to be interchangeable. */
    function Identity(): Descriptor { Normalized().(ceilingTokens := 0) }
  }

  /** "float32", "l2" and "cosine". */
  const FLOAT32: Str := [102, 108, 111, 97, 116, 51, 50]
  const L2: Str := [108, 50]
  const COSINE: Str := [99, 111, 115, 105, 110, 101]

  type Vector = seq<real>

  datatype Generation = Generation(desc: Descriptor, vecs: map<nat, Vector>)

  /** nextId is AUTOINCREMENT's counter: greater than every chunk id ever handed out. */
  datatype Tables = Tables(
    documents: map<Path, Row>,
    content: map<Hash, Content>,
    chunks: map<nat, ChunkRow>,
    nextId: nat,
    gens: map<nat, Generation>,
    current: Option<nat>)

  const EMPTY := Tables(map[], map[], map[], 1, map[], None)

  // ---------------------------------------------------------------------------------------
  // The invariant

  ghost predicate DocumentsResolve(t: Tables) {
    forall p :: p in t.documents && t.documents[p].source.Read? ==> t.documents[p].source.hash in t.content
  }

  ghost predicate ChunksResolve(t: Tables) {
    forall id :: id in t.chunks ==> t.chunks[id].hash in t.content && id < t.nextId
  }

  ghost predicate OrdinalsUnique(t: Tables) {
    forall a, b | a in t.chunks && b in t.chunks && t.chunks[a].hash == t.chunks[b].hash ::
      t.chunks[a].chunk.ordinal == t.chunks[b].chunk.ordinal ==> a == b
  }

  /** Every vector belongs to a live chunk and has its generation's dimensions. */
  ghost predicate VectorsLive(t: Tables) {
    forall g, id :: g in t.gens && id in t.gens[g].vecs ==>
      id in t.chunks && |t.gens[g].vecs[id]| == t.gens[g].desc.dims
  }

  ghost predicate IdentitiesUnique(t: Tables) {
    forall g, h :: g in t.gens && h in t.gens && t.gens[g].desc.Identity() == t.gens[h].desc.Identity() ==> g == h
  }

  ghost predicate FailedIsBare(t: Tables) {
    forall id :: id in t.chunks && t.chunks[id].hash in t.content ==> !t.content[t.chunks[id].hash].state.Failed?
  }

  ghost predicate Inv(t: Tables) {
    && DocumentsResolve(t) && ChunksResolve(t) && OrdinalsUnique(t)
    && VectorsLive(t) && IdentitiesUnique(t) && FailedIsBare(t)
    && (t.current.Some? ==> t.current.value in t.gens)
  }

  // ---------------------------------------------------------------------------------------
  // Documents

  function NewContent(now: int): Content { Content(Discovered, map[], 0, None, now) }

  /** The eager content insert: terminal content is never touched, the rest is marked recent. */
  function TouchContent(content: map<Hash, Content>, source: Source, now: int): map<Hash, Content> {
    if source.Unread? then content
    else if source.hash !in content then content[source.hash := NewContent(now)]
    else if content[source.hash].state.Terminal() then content
    else content[source.hash := content[source.hash].(updatedAt := now)]
  }

  function UpsertOne(t: Tables, doc: Document, now: int): Tables {
    t.(content := TouchContent(t.content, doc.row.source, now), documents := t.documents[doc.path := doc.row])
  }

  function UpsertAll(t: Tables, docs: seq<Document>, now: int): Tables {
    if docs == [] then t
    else UpsertOne(UpsertAll(t, docs[..|docs| - 1], now), docs[|docs| - 1], now)
  }

  function DropDocuments(t: Tables, paths: set<Path>): Tables {
    t.(documents := t.documents - paths)
  }

  /** strings.TrimRight(dir, "/"). */
  function TrimSlashes(dir: Path): Path { TrimRight(dir, SLASH) }

  // ---------------------------------------------------------------------------------------
  // Content, chunks and vectors

  function ChunkIds(t: Tables, h: Hash): set<nat> {
    set id | id in t.chunks && t.chunks[id].hash == h
  }

  /** deleteVectorsTx: from every generation, not only the current one. */
  function DropVectors(gens: map<nat, Generation>, ids: set<nat>): map<nat, Generation> {
    map g | g in gens :: gens[g].(vecs := gens[g].vecs - ids)
  }

  /** Content h without its chunks and their vectors. */
  function Strip(t: Tables, h: Hash): Tables {
    t.(gens := DropVectors(t.gens, ChunkIds(t, h)), chunks := t.chunks - ChunkIds(t, h))
  }

  function NewIds(t: Tables, n: nat): seq<nat> { seq(n, i => t.nextId + i) }

  function NewRow(t: Tables, h: Hash, chunks: seq<Chunk>, id: nat): ChunkRow
    requires t.nextId <= id < t.nextId + |chunks|
  {
    ChunkRow(h, chunks[id - t.nextId])
  }

  function InsertChunks(t: Tables, h: Hash, chunks: seq<Chunk>): Tables {
    t.(chunks := t.chunks + (map id | t.nextId <= id < t.nextId + |chunks| :: NewRow(t, h, chunks, id)),
       nextId := t.nextId + |chunks|)
  }

  predicate DistinctOrdinals(chunks: seq<Chunk>) {
    forall i, j :: 0 <= i < j < |chunks| ==> chunks[i].ordinal != chunks[j].ordinal
  }

  function StoreChunksSpec(t: Tables, h: Hash, state: State, versions: Versions, chunks: seq<Chunk>, now: int): Tables {
    if h !in t.content || !DistinctOrdinals(chunks) then t
    else
      var updated := t.(content := t.content[h := t.content[h].(state := state, versions := versions, updatedAt := now)]);
      InsertChunks(Strip(updated, h), h, chunks)
  }

  function SetStateSpec(t: Tables, h: Hash, state: State, now: int): Tables {
    if h !in t.content then t
    else t.(content := t.content[h := t.content[h].(state := state, updatedAt := now)])
  }

  function MarkFailedSpec(t: Tables, h: Hash, now: int): Tables {
    if h !in t.content then t else Strip(SetStateSpec(t, h, Failed, now), h)
  }

  function RescheduleSpec(t: Tables, h: Hash, attempts: int, at: int, now: int): Tables {
    if h !in t.content then t
    else t.(content := t.content[h := t.content[h].(attempts := attempts, nextRetryAt := Some(at), updatedAt := now)])
  }

  predicate Stale(versions: Versions, current: Versions) {
    exists k :: k in current && (k !in versions || versions[k] != current[k])
  }

  function ResetOne(c: Content, current: Versions): Content {
    if c.state.Terminal() && Stale(c.versions, current)
    then c.(state := Discovered, attempts := 0, nextRetryAt := None) else c
  }

  function ResetStaleSpec(t: Tables, current: Versions): Tables {
    t.(content := map h | h in t.content :: ResetOne(t.content[h], current))
  }

  /** The rows a stale sweep moves. */
  function StaleRows(t: Tables, current: Versions): set<Hash> {
    set h | h in t.content && t.content[h].state.Terminal() && Stale(t.content[h].versions, current)
  }

  // ---------------------------------------------------------------------------------------
  // Vector generations

  type Embedder = Spec

  function Wanted(e: Embedder, dims: nat): Descriptor {
    Descriptor(e.model, dims, FLOAT32, COSINE, e.queryTemplate, e.passageTemplate, e.ceilingTokens)
  }

  predicate Matches(t: Tables, g: nat, want: Descriptor) {
    g in t.gens && t.gens[g].desc.Identity() == want.Identity()
  }

  predicate HasMatch(t: Tables, want: Descriptor) {
    exists g :: g in t.gens && Matches(t, g, want)
  }

  /** The generation number minted when no generation matches. */
  ghost predicate IsNextGen(t: Tables, g: nat) {
    && (forall x :: x in t.gens ==> x < g)
    && (g == 1 || exists x :: x in t.gens && g == x + 1)
  }

  /** The specification of EnsureVecTable: the matching generation becomes current with its recorded
      ceiling refreshed, or a new empty one is minted past every existing number. */
  ghost predicate Ensured(t: Tables, want: Descriptor, after: Tables) {
    && after == t.(gens := after.gens, current := after.current)
    && after.current.Some?
    && var g := after.current.value;
       if HasMatch(t, want)
       then Matches(t, g, want) && after.gens == t.gens[g := t.gens[g].(desc := want)]
       else g !in t.gens && IsNextGen(t, g)
            && after.gens == t.gens[g := Generation(want, map[])]
  }

  predicate ValidEmbedder(e: Embedder, dims: int) { e.model != [] && 1 <= dims <= 8192 }

  /** The dimensions of the current generation, 0 when there is none. */
  function CurrentDims(t: Tables): nat {
    if t.current.Some? && t.current.value in t.gens then t.gens[t.current.value].desc.dims else 0
  }

  datatype VectorOutcome = Stored | LengthMismatch | NoTable | Superseded | WrongDims

  function Members(ids: seq<nat>): set<nat> { set id | id in ids }

  function LiveIds(t: Tables, ids: seq<nat>): set<nat> { set id | id in ids && id in t.chunks }

  /** UpsertVectors: all or nothing. The liveness count is over the distinct ids. */
  function VectorOutcomeOf(t: Tables, ids: seq<nat>, vecs: seq<Vector>): VectorOutcome {
    if |ids| != |vecs| then LengthMismatch
    else if ids == [] then Stored
    else if t.current.None? || t.current.value !in t.gens then NoTable
    else if |LiveIds(t, ids)| != |ids| then Superseded
    else if exists i :: 0 <= i < |vecs| && |vecs[i]| != CurrentDims(t) then WrongDims
    else Stored
  }

  function PutVectors(vecs: map<nat, Vector>, ids: seq<nat>, added: seq<Vector>): map<nat, Vector>
    requires |ids| == |added|
  {
    if ids == [] then vecs
    else PutVectors(vecs, ids[..|ids| - 1], added[..|ids| - 1])[ids[|ids| - 1] := added[|ids| - 1]]
  }

  function UpsertVectorsSpec(t: Tables, ids: seq<nat>, vecs: seq<Vector>): Tables {
    if VectorOutcomeOf(t, ids, vecs) != Stored || ids == [] then t
    else
      var g := t.current.value;
      t.(gens := t.gens[g := t.gens[g].(vecs := PutVectors(t.gens[g].vecs, ids, vecs))])
  }

  // ---------------------------------------------------------------------------------------
  // Orphans

  datatype Scope = QueueScope | AllScope

  predicate Referenced(t: Tables, h: Hash) {
    exists p :: p in t.documents && t.documents[p].source == Read(h)
  }

  predicate InScope(t: Tables, scope: Scope, h: Hash) {
    h in t.content && (scope.AllScope? || !t.content[h].state.Terminal())
  }

  /** The hashes the sweep's predicate selects: in scope, and no document references them. */
  function Orphans(t: Tables, scope: Scope): set<Hash> {
    set h | h in t.content && InScope(t, scope, h) && !Referenced(t, h)
  }

  function ChunkIdsOf(chunks: map<nat, ChunkRow>, hashes: set<Hash>): set<nat> {
    set id | id in chunks && chunks[id].hash in hashes
  }

  function DropContent(t: Tables, doomed: set<Hash>): Tables {
    var ids := ChunkIdsOf(t.chunks, doomed);
    t.(gens := DropVectors(t.gens, ids), chunks := t.chunks - ids, content := t.content - doomed)
  }

  /** One sweep transaction: the predicate is evaluated again inside it. */
  function SweepTx(t: Tables, scope: Scope, batch: set<Str>): Tables {
    DropContent(t, Doomed(t, scope, batch))
  }

  /** verifyOrphans. */
  function Doomed(t: Tables, scope: Scope, batch: set<Str>): set<Hash> {
    set h | h in Orphans(t, scope) && h in batch
  }
}
